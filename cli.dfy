/** The command-line entry point: the argument-count guard and the name of
    the mask file written next to the input image. */
module Cli {
  import opened Wrappers

  /** The four positional arguments, after the flag parser has removed any
      flags from argv; `program` is argv[0]. */
  datatype Invocation = Invocation(program: string, modelFile: string, trainedFile: string,
                                   colormapFile: string, imageFile: string)

  /** Status returned when the argument count is wrong. */
  const UsageStatus := 1

  function Argv(inv: Invocation): seq<string>
  {
    [inv.program, inv.modelFile, inv.trainedFile, inv.colormapFile, inv.imageFile]
  }

  /** The argc check: exactly five entries, otherwise the usage message and
      status 1, before any file is touched. On success the invocation holds
      exactly the given arguments. */
  function ParseArgs(argv: seq<string>): (r: Result<Invocation, int>)
    ensures r.Success? <==> |argv| == 5
    ensures r.Failure? ==> r.error == UsageStatus
    ensures r.Success? ==> Argv(r.value) == argv
  {
    if |argv| != 5 then Failure(UsageStatus)
    else Success(Invocation(argv[0], argv[1], argv[2], argv[3], argv[4]))
  }

  /** std::string::find_last_of for one character; None stands for npos. */
  function LastIndexOf(s: string, ch: char): (r: Option<nat>)
    ensures r.None? <==> ch !in s
    ensures r.Some? ==> r.value < |s| && s[r.value] == ch
    ensures r.Some? ==> forall j :: r.value < j < |s| ==> s[j] != ch
  {
    if |s| == 0 then None
    else if s[|s| - 1] == ch then Some(|s| - 1)
    else
      var r := LastIndexOf(s[..|s| - 1], ch);
      assert s == s[..|s| - 1] + [s[|s| - 1]];
      r
  }

  /** The index LastIndexOf reports is the only one that has its property. */
  lemma LastIndexOfUnique(s: string, ch: char, q: nat)
    requires q < |s| && s[q] == ch
    requires forall j :: q < j < |s| ==> s[j] != ch
    ensures LastIndexOf(s, ch) == Some(q)
  {
  }

  const SegTag := "_seg"

  /** `file.substr(0, pos) + "_seg" + file.substr(pos)` with pos the last
      '.'. Without a '.', substr(npos) throws std::out_of_range: None. */
  function SegFileName(file: string): (r: Option<string>)
    ensures r.None? <==> '.' !in file
    ensures r.Some? ==> |r.value| == |file| + |SegTag|
  {
    match LastIndexOf(file, '.')
    case None => None
    case Some(pos) => Some(file[..pos] + SegTag + file[pos..])
  }

  /** Undo SegFileName: remove the "_seg" just before the last '.'. */
  function StripSeg(seg: string): Option<string>
  {
    match LastIndexOf(seg, '.')
    case None => None
    case Some(pos) =>
      if pos >= |SegTag| && seg[pos - |SegTag| .. pos] == SegTag
      then Some(seg[..pos - |SegTag|] + seg[pos..])
      else None
  }

  /** The text from the last '.' on, when there is one. */
  function Extension(s: string): Option<string>
  {
    match LastIndexOf(s, '.')
    case None => None
    case Some(pos) => Some(s[pos..])
  }

  /** In the output name the last '.' is the input's last '.', moved past
      the inserted "_seg". */
  lemma SegFileNameLastDot(file: string, pos: nat)
    requires LastIndexOf(file, '.') == Some(pos)
    ensures SegFileName(file) == Some(file[..pos] + SegTag + file[pos..])
    ensures LastIndexOf(SegFileName(file).value, '.') == Some(pos + |SegTag|)
  {
    var seg := file[..pos] + SegTag + file[pos..];
    var q := pos + |SegTag|;
    forall j | q <= j < |seg|
      ensures seg[j] == file[j - |SegTag|]
    {
    }
    LastIndexOfUnique(seg, '.', q);
  }

  /** Everything before the last '.' is kept and "_seg" follows it. */
  lemma SegFileNameShape(file: string, pos: nat)
    requires LastIndexOf(file, '.') == Some(pos)
    ensures SegFileName(file).Some?
    ensures SegFileName(file).value[..pos] == file[..pos]
    ensures SegFileName(file).value[pos .. pos + |SegTag|] == SegTag
    ensures SegFileName(file).value[pos + |SegTag| ..] == file[pos..]
  {
  }

  /** The output name keeps the input's extension. */
  lemma SegFileNameKeepsExtension(file: string)
    requires '.' in file
    ensures SegFileName(file).Some?
    ensures Extension(SegFileName(file).value) == Extension(file)
  {
    var pos := LastIndexOf(file, '.').value;
    SegFileNameLastDot(file, pos);
    SegFileNameShape(file, pos);
  }

  /** Removing the inserted "_seg" gives the input name back. */
  lemma SegFileNameRoundTrip(file: string)
    requires '.' in file
    ensures SegFileName(file).Some?
    ensures StripSeg(SegFileName(file).value) == Some(file)
  {
    var pos := LastIndexOf(file, '.').value;
    SegFileNameLastDot(file, pos);
    SegFileNameShape(file, pos);
    var seg := SegFileName(file).value;
    var stripped := seg[..pos] + seg[pos + |SegTag|..];
    assert StripSeg(seg) == Some(stripped);
    assert stripped == file[..pos] + file[pos..];
    assert file[..pos] + file[pos..] == file;
  }
}
