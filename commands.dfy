/** The host's single-byte commands and how the sketch reads them from the
    serial input: 'P' takes one parameter byte, 'S' and 'R' none, and any other
    byte is read and dropped. */
module Commands {
  import opened Bytes

  datatype Option<T> = None | Some(value: T)

  const CommandPrescaler: byte := 0x50  // 'P'
  const CommandToggle: byte := 0x53     // 'S'
  const CommandQuery: byte := 0x52      // 'R'

  datatype Command =
    | SetPrescaler(index: byte)
    | ToggleSampling
    | QuerySettings
    | Ignored(code: byte)

  /** A command as it can arrive: an ignored byte is none of the three codes. */
  predicate Canonical(c: Command) {
    c.Ignored? ==> c.code != CommandPrescaler && c.code != CommandToggle && c.code != CommandQuery
  }

  /** The bytes the host sends for a command. */
  function Encode(c: Command): seq<byte> {
    match c
    case SetPrescaler(i) => [CommandPrescaler, i]
    case ToggleSampling => [CommandToggle]
    case QuerySettings => [CommandQuery]
    case Ignored(b) => [b]
  }

  /** A 'P' at the read position has its parameter byte after it. The sketch spins
      until that byte arrives; the model requires it to be there. */
  predicate ParameterAvailable(input: seq<byte>, pos: nat) {
    pos < |input| && input[pos] == CommandPrescaler ==> pos + 1 < |input|
  }

  /** The command at `pos` and the read position after it, or None when no byte is
      available. */
  function NextCommand(input: seq<byte>, pos: nat): (r: Option<(Command, nat)>)
    requires pos <= |input| && ParameterAvailable(input, pos)
    ensures r.None? <==> pos == |input|
    ensures r.Some? ==> var (c, next) := r.value;
      Canonical(c) && pos < next <= |input| && input[pos..next] == Encode(c)
  {
    if pos == |input| then None
    else
      var b := input[pos];
      if b == CommandPrescaler then Some((SetPrescaler(input[pos + 1]), pos + 2))
      else if b == CommandToggle then Some((ToggleSampling, pos + 1))
      else if b == CommandQuery then Some((QuerySettings, pos + 1))
      else Some((Ignored(b), pos + 1))
  }

  /** Decoding what the host encoded gives back the command and moves the read
      position just past it, whatever surrounds it. */
  lemma EncodeThenDecode(c: Command, before: seq<byte>, after: seq<byte>)
    requires Canonical(c)
    ensures ParameterAvailable(before + Encode(c) + after, |before|)
    ensures NextCommand(before + Encode(c) + after, |before|) == Some((c, |before| + |Encode(c)|))
  {
  }
}
