/**
 * Where `main` gets its URLs (shopify_qa.py:568-582): the command-line
 * arguments, or else the lines of `urls.txt` with blank and comment lines
 * dropped; with neither, the script exits with status 1.
 */
module UrlFile {
  import opened Wrappers
  import Text

  /** A stripped line that `main` keeps. */
  predicate Kept(line: string) {
    var s := Text.Strip(line);
    s != [] && s[0] != '#'
  }

  /** `[line.strip() for line in f if line.strip() and not line.strip().startswith('#')]` */
  function UrlLines(lines: seq<string>): (urls: seq<string>)
    ensures |urls| <= |lines|
  {
    if lines == [] then []
    else
      var init := UrlLines(lines[..|lines| - 1]);
      var line := lines[|lines| - 1];
      if Kept(line) then init + [Text.Strip(line)] else init
  }

  /** Every URL kept is non-empty, has no surrounding whitespace and does not
      start with `#`. */
  lemma {:induction false} UrlLinesClean(lines: seq<string>)
    ensures forall u :: u in UrlLines(lines) ==> u != [] && u[0] != '#' && Text.Stripped(u)
    decreases |lines|
  {
    if lines != [] {
      var init := lines[..|lines| - 1];
      var line := lines[|lines| - 1];
      UrlLinesClean(init);
      if Kept(line) {
        Text.StrippedStrip(line);
        assert UrlLines(lines) == UrlLines(init) + [Text.Strip(line)];
        forall u | u in UrlLines(lines)
          ensures u != [] && u[0] != '#' && Text.Stripped(u)
        {
          if u !in UrlLines(init) {
            assert u == Text.Strip(line);
          }
        }
      }
    }
  }

  /** Every URL comes from a kept line of the file. */
  lemma {:induction false} UrlLinesSound(lines: seq<string>)
    ensures forall u :: u in UrlLines(lines) ==>
      exists i :: 0 <= i < |lines| && Kept(lines[i]) && Text.Strip(lines[i]) == u
    decreases |lines|
  {
    if lines != [] {
      var init := lines[..|lines| - 1];
      var line := lines[|lines| - 1];
      UrlLinesSound(init);
      forall u | u in UrlLines(lines)
        ensures exists i :: 0 <= i < |lines| && Kept(lines[i]) && Text.Strip(lines[i]) == u
      {
        if u in UrlLines(init) {
          var i :| 0 <= i < |init| && Kept(init[i]) && Text.Strip(init[i]) == u;
          assert lines[i] == init[i];
        } else {
          assert Kept(line) && Text.Strip(line) == u;
        }
      }
    }
  }

  /** Every kept line of the file is among the URLs. */
  lemma {:induction false} UrlLinesComplete(lines: seq<string>)
    ensures forall i :: 0 <= i < |lines| && Kept(lines[i]) ==> Text.Strip(lines[i]) in UrlLines(lines)
    decreases |lines|
  {
    if lines != [] {
      var init := lines[..|lines| - 1];
      UrlLinesComplete(init);
      forall i | 0 <= i < |lines| && Kept(lines[i])
        ensures Text.Strip(lines[i]) in UrlLines(lines)
      {
        if i < |init| {
          assert init[i] == lines[i];
        }
      }
    }
  }

  /**
   * The URL list `main` tests: the arguments when there are any (the file is
   * then not read), else the kept lines of `urls.txt` when it exists. `None`
   * is the `sys.exit(1)` when that list is empty.
   */
  function SelectUrls(args: seq<string>, file: Option<seq<string>>): (r: Option<seq<string>>)
    ensures r.Some? ==> r.value != []
    ensures args != [] ==> r == Some(args)
    ensures args == [] && file.Some? ==> r == (if UrlLines(file.value) == [] then None else Some(UrlLines(file.value)))
    ensures args == [] && file.None? ==> r.None?
  {
    var urls := if args != [] then args else if file.Some? then UrlLines(file.value) else [];
    if urls == [] then None else Some(urls)
  }
}
