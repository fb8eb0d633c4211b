/**
 * The file status list (`components/file-status.tsx`): one row per file with
 * an icon, a colour and a caption for its generation status.
 */
module FileStatus {
  import opened Wrappers

  datatype Status = Pending | Generating | Completed | Failed

  datatype FileStatus = FileStatus(name: string, status: Status, content: Option<string>)

  datatype Icon = Spinner | Check | Circle

  /** The spinner while generating, the check once completed, a plain circle otherwise. */
  function StatusIcon(s: Status): (i: Icon)
    ensures i == Spinner <==> s == Generating
    ensures i == Check <==> s == Completed
  {
    if s == Generating then Spinner else if s == Completed then Check else Circle
  }

  /** The row is green exactly for a completed file. */
  predicate Green(s: Status) {
    s == Completed
  }

  function StatusLabel(s: Status): (r: string)
    ensures s == Pending ==> r == "Pending"
    ensures s == Generating ==> r == "Generating..."
    ensures s == Completed ==> r == "Generated"
    ensures s == Failed ==> r == "Error"
  {
    if s == Pending then "Pending"
    else if s == Generating then "Generating..."
    else if s == Completed then "Generated"
    else "Error"
  }

  /** Different statuses get different captions. */
  lemma StatusLabelInjective(s: Status, t: Status)
    requires StatusLabel(s) == StatusLabel(t)
    ensures s == t
  {
    assert StatusLabel(s)[0] == StatusLabel(t)[0];
    if s == Pending || t == Pending {
      assert StatusLabel(s)[1] == StatusLabel(t)[1];
    }
  }

  datatype Row = Row(icon: Icon, green: bool, text: string)

  /** `{file.name}: {label}` with its icon and colour. */
  function RowOf(f: FileStatus): (r: Row)
    ensures r.icon == StatusIcon(f.status) && r.green == Green(f.status)
    ensures r.text == f.name + ": " + StatusLabel(f.status)
  {
    Row(StatusIcon(f.status), Green(f.status), f.name + ": " + StatusLabel(f.status))
  }

  /** One row per file, in order. */
  function FileStatusList(files: seq<FileStatus>): (r: seq<Row>)
    ensures |r| == |files|
    ensures forall i :: 0 <= i < |files| ==> r[i] == RowOf(files[i])
  {
    seq(|files|, i requires 0 <= i < |files| => RowOf(files[i]))
  }

  /** A row's caption and colour give the status back. */
  lemma RowDeterminesStatus(f: FileStatus, g: FileStatus)
    requires f.name == g.name && RowOf(f) == RowOf(g)
    ensures f.status == g.status
  {
    var a := RowOf(f).text[|f.name| + 2..];
    var b := RowOf(g).text[|g.name| + 2..];
    assert a == StatusLabel(f.status);
    assert b == StatusLabel(g.status);
    StatusLabelInjective(f.status, g.status);
  }
}
