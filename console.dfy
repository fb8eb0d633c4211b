/**
 * The console pane of the playground and of the IDE: messages of four kinds,
 * each stamped with the time it was added; its id is that time in decimal.
 */
module Console {
  import opened Text

  datatype ConsoleKind = Log | Error | Warn | Info {
    function Name(): string {
      match this
      case Log => "log"
      case Error => "error"
      case Warn => "warn"
      case Info => "info"
    }
  }

  datatype ConsoleMessage = ConsoleMessage(id: string, kind: ConsoleKind, message: string, timestamp: int)

  /** The message `addConsoleMessage(kind, message)` creates at time `now`. */
  function NewMessage(kind: ConsoleKind, message: string, now: nat): (m: ConsoleMessage)
    ensures m.kind == kind && m.message == message && m.timestamp == now
    ensures m.id == NatToString(now)
  {
    ConsoleMessage(NatToString(now), kind, message, now)
  }

  /** The tag before a message, `[LOG]` and so on: the kind's name in capitals. */
  function KindTag(k: ConsoleKind): (t: string)
    ensures |t| == |k.Name()| + 2 && t[0] == '[' && t[|t| - 1] == ']'
  {
    match k
    case Log => "[LOG]"
    case Error => "[ERROR]"
    case Warn => "[WARN]"
    case Info => "[INFO]"
  }

  /** The tag names the kind, letter for letter (lowercasing the tag's inside gives the name back). */
  lemma KindTagNamesKind(k: ConsoleKind)
    ensures Lower(KindTag(k)[1..|KindTag(k)| - 1]) == k.Name()
  {
    var t := KindTag(k);
    assert t[1..|t| - 1] == (match k case Log => "LOG" case Error => "ERROR" case Warn => "WARN" case Info => "INFO");
  }

  /** Two messages added at the same millisecond share an id: ids are not unique. */
  lemma SameMillisecondSameId(a: ConsoleKind, b: ConsoleKind, x: string, y: string, now: nat)
    ensures NewMessage(a, x, now).id == NewMessage(b, y, now).id
  {
  }
}
