// The two dataset scripts that drop one class from YOLO label files and
// renumber another: `filter_classes.py` (`process_labels`, `update_yaml`)
// and `filter_classes_fast.py` (`process_file`, the `changed_count` loop,
// its own `update_yaml`). A label file is the list of lines `readlines`
// returns; a directory of label files is a map from path to those lines.

module LabelFilter {
  import opened Wrappers
  import opened Text

  // ----- Python's str.split() and " ".join -----

  /** `str.isspace` for one character: the separators `str.split()` splits on. */
  predicate IsSpace(c: char) {
    var n := c as int;
    || (0x09 <= n <= 0x0D) || (0x1C <= n <= 0x20) || n == 0x85 || n == 0xA0 || n == 0x1680
    || (0x2000 <= n <= 0x200A) || n == 0x2028 || n == 0x2029 || n == 0x202F || n == 0x205F || n == 0x3000
  }

  /** A token `str.split()` can produce: non-empty, no white space. */
  predicate Word(w: string) {
    |w| > 0 && forall i :: 0 <= i < |w| ==> !IsSpace(w[i])
  }

  predicate AllWords(ws: seq<string>) {
    forall k :: 0 <= k < |ws| ==> Word(ws[k])
  }

  /** Length of the leading run of non-space characters. */
  function WordLength(s: string): (n: nat)
    ensures n <= |s|
    ensures forall i :: 0 <= i < n ==> !IsSpace(s[i])
    ensures n == |s| || IsSpace(s[n])
  {
    if s == [] || IsSpace(s[0]) then 0 else 1 + WordLength(s[1..])
  }

  /** `s.split()`: the maximal runs of non-space characters, in order. */
  function Words(s: string): (r: seq<string>)
    ensures AllWords(r)
    decreases |s|
  {
    if s == [] then []
    else if IsSpace(s[0]) then Words(s[1..])
    else
      var n := WordLength(s);
      [s[..n]] + Words(s[n..])
  }

  /** `" ".join(ws)`. */
  function Join(ws: seq<string>): string {
    if ws == [] then []
    else if |ws| == 1 then ws[0]
    else ws[0] + " " + Join(ws[1..])
  }

  lemma {:induction false} WordLengthOfWord(w: string, sep: char, rest: string)
    requires Word(w) && IsSpace(sep)
    ensures WordLength(w + [sep] + rest) == |w|
    decreases |w|
  {
    var s := w + [sep] + rest;
    if |w| > 1 {
      assert s[1..] == w[1..] + [sep] + rest;
      WordLengthOfWord(w[1..], sep, rest);
    } else {
      assert s[1..] == [sep] + rest;
    }
  }

  lemma WordsAfterWord(w: string, sep: char, rest: string)
    requires Word(w) && IsSpace(sep)
    ensures Words(w + [sep] + rest) == [w] + Words(rest)
  {
    var s := w + [sep] + rest;
    WordLengthOfWord(w, sep, rest);
    assert s[..|w|] == w;
    assert s[|w|..] == [sep] + rest;
    assert ([sep] + rest)[1..] == rest;
  }

  /** Joining words and splitting the emitted line gives the same words back. */
  lemma {:induction false} SplitJoin(ws: seq<string>)
    requires AllWords(ws)
    ensures Words(Join(ws) + "\n") == ws
    decreases |ws|
  {
    if ws == [] {
      assert Words("\n") == Words("");
    } else if |ws| == 1 {
      WordsAfterWord(ws[0], '\n', "");
      assert Join(ws) + "\n" == ws[0] + ['\n'] + "";
    } else {
      SplitJoin(ws[1..]);
      WordsAfterWord(ws[0], ' ', Join(ws[1..]) + "\n");
      assert Join(ws) + "\n" == ws[0] + [' '] + (Join(ws[1..]) + "\n");
      assert [ws[0]] + ws[1..] == ws;
    }
  }

  // ----- One line -----

  /** What the rewriting loop does with one line. */
  datatype Fate = Skipped | Removed | Kept(text: string, remapped: bool)

  /**
   * The loop body of `process_labels` / `process_file`: blank lines and lines
   * whose first token is not an integer are skipped; the class `removeId` is
   * removed; a class in `remap` gets only its first token replaced; every kept
   * line is re-emitted as its tokens joined by single spaces plus a newline.
   */
  function LineFate(line: string, removeId: int, remap: map<int, int>): (r: Fate)
    ensures r.Skipped? <==> Words(line) == [] || ParseInt(Words(line)[0]).None?
    ensures r.Removed? <==> Words(line) != [] && ParseInt(Words(line)[0]) == Some(removeId)
    ensures r.Kept? ==> |r.text| > 0 && r.text[|r.text| - 1] == '\n'
    ensures r.Kept? ==> (r.remapped <==> ParseInt(Words(line)[0]).value in remap)
  {
    var parts := Words(line);
    if parts == [] then Skipped
    else match ParseInt(parts[0])
      case None => Skipped
      case Some(id) =>
        if id == removeId then Removed
        else if id in remap then Kept(Join([IntToString(remap[id])] + parts[1..]) + "\n", true)
        else Kept(Join(parts) + "\n", false)
  }

  /** Whether the line sets the `modified` flag. */
  predicate Touches(line: string, removeId: int, remap: map<int, int>) {
    var f := LineFate(line, removeId, remap);
    f.Removed? || (f.Kept? && f.remapped)
  }

  /**
   * A kept line carries the same tokens as the original, except that a
   * remapped line's first token is the new id; the class id read back from
   * the new line is the id written.
   */
  lemma KeptLineTokens(line: string, removeId: int, remap: map<int, int>)
    requires LineFate(line, removeId, remap).Kept?
    ensures var parts := Words(line);
      var id := ParseInt(parts[0]).value;
      var f := LineFate(line, removeId, remap);
      var first := if f.remapped then IntToString(remap[id]) else parts[0];
      && Words(f.text) == [first] + parts[1..]
      && ParseInt(Words(f.text)[0]) == Some(if f.remapped then remap[id] else id)
  {
    var parts := Words(line);
    var id := ParseInt(parts[0]).value;
    if id in remap {
      var n := IntToString(remap[id]);
      IntToStringIsWord(remap[id]);
      SplitJoin([n] + parts[1..]);
      ParseIntToString(remap[id]);
    } else {
      SplitJoin(parts);
      assert [parts[0]] + parts[1..] == parts;
    }
  }

  lemma IntToStringIsWord(n: int)
    ensures Word(IntToString(n))
  {
    var s := IntToString(n);
    var d := NatToString(if n < 0 then -n else n);
    assert forall i :: 0 <= i < |d| ==> !IsSpace(d[i]);
    if n < 0 {
      assert s == "-" + d;
      assert forall i :: 1 <= i < |s| ==> s[i] == d[i - 1];
    }
  }

  // ----- One file -----

  function Output(f: Fate): (r: seq<string>)
    ensures |r| <= 1
  {
    if f.Kept? then [f.text] else []
  }

  /** The `new_lines` a pass builds, in the order of the original lines. */
  function Rewritten(lines: seq<string>, removeId: int, remap: map<int, int>): (r: seq<string>)
    ensures |r| <= |lines|
    decreases |lines|
  {
    if lines == [] then []
    else Rewritten(lines[..|lines| - 1], removeId, remap) + Output(LineFate(lines[|lines| - 1], removeId, remap))
  }

  /** Whether a pass sets `modified`: some line was removed or remapped. */
  predicate Touched(lines: seq<string>, removeId: int, remap: map<int, int>) {
    exists k :: 0 <= k < |lines| && Touches(lines[k], removeId, remap)
  }

  lemma RewrittenSnoc(lines: seq<string>, line: string, removeId: int, remap: map<int, int>)
    ensures Rewritten(lines + [line], removeId, remap) == Rewritten(lines, removeId, remap) + Output(LineFate(line, removeId, remap))
  {
    assert (lines + [line])[..|lines|] == lines;
  }

  /** Lines are rewritten independently and keep their relative order. */
  lemma {:induction false} RewrittenAppend(a: seq<string>, b: seq<string>, removeId: int, remap: map<int, int>)
    ensures Rewritten(a + b, removeId, remap) == Rewritten(a, removeId, remap) + Rewritten(b, removeId, remap)
    decreases |b|
  {
    if b == [] {
      assert a + b == a;
    } else {
      var front := b[..|b| - 1];
      var last := b[|b| - 1];
      var out := Output(LineFate(last, removeId, remap));
      assert a + b == (a + front) + [last];
      assert b == front + [last];
      calc {
        Rewritten(a + b, removeId, remap);
        { RewrittenSnoc(a + front, last, removeId, remap); }
        Rewritten(a + front, removeId, remap) + out;
        { RewrittenAppend(a, front, removeId, remap); }
        Rewritten(a, removeId, remap) + Rewritten(front, removeId, remap) + out;
        { RewrittenSnoc(front, last, removeId, remap); }
        Rewritten(a, removeId, remap) + Rewritten(b, removeId, remap);
      }
    }
  }

  /** A file with no removed or remapped line loses only its blank and malformed lines. */
  lemma {:induction false} UntouchedKeepsTokens(lines: seq<string>, removeId: int, remap: map<int, int>)
    requires !Touched(lines, removeId, remap)
    ensures forall k :: 0 <= k < |lines| ==>
      LineFate(lines[k], removeId, remap).Skipped? ||
      LineFate(lines[k], removeId, remap) == Kept(Join(Words(lines[k])) + "\n", false)
  {
    forall k | 0 <= k < |lines|
      ensures LineFate(lines[k], removeId, remap).Skipped? ||
        LineFate(lines[k], removeId, remap) == Kept(Join(Words(lines[k])) + "\n", false)
    {
      assert !Touches(lines[k], removeId, remap);
    }
  }

  lemma TouchedSnoc(lines: seq<string>, line: string, removeId: int, remap: map<int, int>)
    ensures Touched(lines + [line], removeId, remap) <==> Touched(lines, removeId, remap) || Touches(line, removeId, remap)
  {
    var all := lines + [line];
    if Touched(all, removeId, remap) {
      var k :| 0 <= k < |all| && Touches(all[k], removeId, remap);
      if k < |lines| {
        assert lines[k] == all[k];
      }
    }
    if Touched(lines, removeId, remap) {
      var k :| 0 <= k < |lines| && Touches(lines[k], removeId, remap);
      assert all[k] == lines[k];
    }
    if Touches(line, removeId, remap) {
      assert all[|lines|] == line;
    }
  }

  /**
   * The loop over `lines` in `process_labels` and `process_file`: builds
   * `new_lines` by appends and sets `modified` when a line is removed or
   * remapped.
   */
  method RewriteLines(lines: seq<string>, removeId: int, remap: map<int, int>)
    returns (newLines: seq<string>, modified: bool)
    ensures newLines == Rewritten(lines, removeId, remap)
    ensures modified <==> Touched(lines, removeId, remap)
  {
    newLines := [];
    modified := false;
    for k := 0 to |lines|
      invariant newLines == Rewritten(lines[..k], removeId, remap)
      invariant modified <==> Touched(lines[..k], removeId, remap)
    {
      var out, touched := RewriteLine(lines[k], removeId, remap);
      newLines := newLines + out;
      modified := modified || touched;
      assert lines[..k + 1] == lines[..k] + [lines[k]];
      TouchedSnoc(lines[..k], lines[k], removeId, remap);
    }
    assert lines[..|lines|] == lines;
  }

  /** One pass of the loop body: what it appends to `new_lines`, and whether it sets `modified`. */
  method RewriteLine(line: string, removeId: int, remap: map<int, int>) returns (out: seq<string>, touched: bool)
    ensures out == Output(LineFate(line, removeId, remap))
    ensures touched <==> Touches(line, removeId, remap)
  {
    var parts := Words(line);
    if parts == [] {
      return [], false;
    }
    var id := ParseInt(parts[0]);
    if id.None? {
      return [], false;
    }
    if id.value == removeId {
      return [], true;
    }
    touched := false;
    if id.value in remap {
      parts := [IntToString(remap[id.value])] + parts[1..];
      touched := true;
    }
    out := [Join(parts) + "\n"];
  }

  // ----- The fast script's fixed transform -----

  /** Class 2 (flood) is dropped and class 3 (smoke) becomes 2; these are also `process_labels`' defaults. */
  const FloodId := 2
  const SmokeRemap := map[3 := 2]

  function Pass(lines: seq<string>): (r: seq<string>)
    ensures |r| <= |lines|
  {
    Rewritten(lines, FloodId, SmokeRemap)
  }

  /** The number of lines a pass remaps from class 3 to class 2. */
  function RemappedCount(lines: seq<string>): (r: nat)
    ensures r <= |lines|
    decreases |lines|
  {
    if lines == [] then 0
    else
      var f := LineFate(lines[|lines| - 1], FloodId, SmokeRemap);
      RemappedCount(lines[..|lines| - 1]) + (if f.Kept? && f.remapped then 1 else 0)
  }

  /** A second pass keeps a line the first pass kept as it was, and drops one it remapped. */
  lemma SecondPassOnLine(line: string)
    ensures var f := LineFate(line, FloodId, SmokeRemap);
      Pass(Output(f)) == if f.Kept? && f.remapped then [] else Output(f)
  {
    var f := LineFate(line, FloodId, SmokeRemap);
    if f.Kept? {
      KeptLineTokens(line, FloodId, SmokeRemap);
      var g := LineFate(f.text, FloodId, SmokeRemap);
      assert Output(f) == [f.text];
      assert Pass([f.text]) == Rewritten([], FloodId, SmokeRemap) + Output(g);
      if !f.remapped {
        var parts := Words(line);
        assert Words(f.text) == parts by {
          assert [parts[0]] + parts[1..] == parts;
        }
        assert g == Kept(Join(parts) + "\n", false);
      }
    }
  }

  /** Each line remapped by the first pass is removed by a second one; nothing else changes. */
  lemma {:induction false} PassTwice(lines: seq<string>)
    ensures |Pass(Pass(lines))| + RemappedCount(lines) == |Pass(lines)|
    ensures RemappedCount(lines) == 0 ==> Pass(Pass(lines)) == Pass(lines)
    decreases |lines|
  {
    if lines != [] {
      var front := lines[..|lines| - 1];
      var out := Output(LineFate(lines[|lines| - 1], FloodId, SmokeRemap));
      PassTwice(front);
      assert Pass(lines) == Pass(front) + out;
      RewrittenAppend(Pass(front), out, FloodId, SmokeRemap);
      SecondPassOnLine(lines[|lines| - 1]);
    }
  }

  /**
   * Running the transform again leaves a file as it is exactly when the
   * first run remapped no line: the restart-safety the fast script's comment
   * claims holds only for files with no class-3 label.
   */
  lemma PassIdempotentIff(lines: seq<string>)
    ensures Pass(Pass(lines)) == Pass(lines) <==> RemappedCount(lines) == 0
  {
    PassTwice(lines);
  }

  lemma OneTokenLine(c: char)
    requires !IsSpace(c)
    ensures Words([c, '\n']) == [[c]]
  {
    WordsAfterWord([c], '\n', "");
    assert [c] + ['\n'] + "" == [c, '\n'];
  }

  lemma SingleLine(line: string, removeId: int, remap: map<int, int>)
    ensures Rewritten([line], removeId, remap) == Output(LineFate(line, removeId, remap))
  {
    assert [line][..0] == [];
  }

  lemma SmokeLineFate()
    ensures LineFate("3\n", FloodId, SmokeRemap) == Kept("2\n", true)
  {
    OneTokenLine('3');
    assert ParseInt("3") == Some(3) by {
      assert AllDigits("3");
    }
    assert IntToString(2) == "2";
    assert ["2"] + ["3"][1..] == ["2"];
  }

  lemma FloodLineFate()
    ensures LineFate("2\n", FloodId, SmokeRemap) == Removed
  {
    OneTokenLine('2');
    assert ParseInt("2") == Some(2) by {
      assert AllDigits("2");
    }
  }

  /** A one-line file where the second run differs: "3" becomes "2", which is then dropped. */
  lemma PassTwiceDropsSmoke()
    ensures Pass(["3\n"]) == ["2\n"]
    ensures Pass(Pass(["3\n"])) == []
  {
    SingleLine("3\n", FloodId, SmokeRemap);
    SmokeLineFate();
    SingleLine("2\n", FloodId, SmokeRemap);
    FloodLineFate();
  }

  // ----- Directories of label files -----

  predicate Distinct(ps: seq<string>) {
    forall i, j :: 0 <= i < j < |ps| ==> ps[i] != ps[j]
  }

  /** `process_labels` over the globbed paths: a file is rewritten only when some line was touched. */
  function AfterLabels(files: map<string, seq<string>>, paths: seq<string>, removeId: int, remap: map<int, int>)
    : (r: map<string, seq<string>>)
    ensures r.Keys == files.Keys
    decreases |paths|
  {
    if paths == [] then files
    else
      var prior := AfterLabels(files, paths[..|paths| - 1], removeId, remap);
      var p := paths[|paths| - 1];
      if p in prior && Touched(prior[p], removeId, remap) then prior[p := Rewritten(prior[p], removeId, remap)]
      else prior
  }

  /**
   * Whether handling `p` raises out of `process_labels`, which has no `try`:
   * the file cannot be opened for reading, or it has to be rewritten and
   * cannot be opened for writing.
   */
  predicate LabelsRaise(files: map<string, seq<string>>, p: string, removeId: int, remap: map<int, int>,
                        unreadable: set<string>, unwritable: set<string>) {
    p in unreadable || (p in files && Touched(files[p], removeId, remap) && p in unwritable)
  }

  /**
   * How many of the globbed paths `process_labels` finishes before a raise
   * stops it: all of them when none raises. A raise also ends the script
   * before `update_yaml` runs.
   */
  function Completed(files: map<string, seq<string>>, paths: seq<string>, removeId: int, remap: map<int, int>,
                     unreadable: set<string>, unwritable: set<string>): (n: nat)
    ensures n <= |paths|
    ensures n < |paths| ==> LabelsRaise(AfterLabels(files, paths[..n], removeId, remap), paths[n], removeId, remap, unreadable, unwritable)
    ensures unreadable == {} && unwritable == {} ==> n == |paths|
    decreases |paths|
  {
    if paths == [] then 0
    else
      var front := paths[..|paths| - 1];
      var m := Completed(files, front, removeId, remap, unreadable, unwritable);
      if m < |front| then
        assert front[..m] == paths[..m] && front[m] == paths[m];
        m
      else if LabelsRaise(AfterLabels(files, front, removeId, remap), paths[|paths| - 1], removeId, remap, unreadable, unwritable) then m
      else |paths|
  }

  /** One more path through `process_labels`: it raises there, or it is rewritten when touched and counted as finished. */
  lemma LabelsStep(files: map<string, seq<string>>, paths: seq<string>, k: nat, removeId: int, remap: map<int, int>,
                   unreadable: set<string>, unwritable: set<string>)
    requires k < |paths| && Completed(files, paths[..k], removeId, remap, unreadable, unwritable) == k
    ensures var prior := AfterLabels(files, paths[..k], removeId, remap);
      && Completed(files, paths[..k + 1], removeId, remap, unreadable, unwritable) ==
         (if LabelsRaise(prior, paths[k], removeId, remap, unreadable, unwritable) then k else k + 1)
      && AfterLabels(files, paths[..k + 1], removeId, remap) ==
         (if paths[k] in prior && Touched(prior[paths[k]], removeId, remap)
          then prior[paths[k] := Rewritten(prior[paths[k]], removeId, remap)] else prior)
  {
    assert paths[..k + 1][..k] == paths[..k];
  }

  /** Once a raise has stopped `process_labels`, the later paths are never reached. */
  lemma {:induction false} CompletedStops(files: map<string, seq<string>>, paths: seq<string>, j: nat, removeId: int, remap: map<int, int>,
                                          unreadable: set<string>, unwritable: set<string>)
    requires j <= |paths| && Completed(files, paths[..j], removeId, remap, unreadable, unwritable) < j
    ensures Completed(files, paths, removeId, remap, unreadable, unwritable) ==
            Completed(files, paths[..j], removeId, remap, unreadable, unwritable)
    decreases |paths| - j
  {
    if j < |paths| {
      assert paths[..j + 1][..j] == paths[..j];
      CompletedStops(files, paths, j + 1, removeId, remap, unreadable, unwritable);
    } else {
      assert paths[..j] == paths;
    }
  }

  /** `process_file` of the fast script rewrites `p` when it exists, some line was touched and it can be opened for writing. */
  predicate FastChanges(files: map<string, seq<string>>, p: string, unwritable: set<string>) {
    p in files && Touched(files[p], FloodId, SmokeRemap) && p !in unwritable
  }

  function AfterFast(files: map<string, seq<string>>, paths: seq<string>, unwritable: set<string>)
    : (r: map<string, seq<string>>)
    ensures r.Keys == files.Keys
    decreases |paths|
  {
    if paths == [] then files
    else
      var prior := AfterFast(files, paths[..|paths| - 1], unwritable);
      var p := paths[|paths| - 1];
      if FastChanges(prior, p, unwritable) then prior[p := Pass(prior[p])] else prior
  }

  /** Over distinct paths, each listed file is processed once against its original contents. */
  lemma {:induction false} AfterLabelsPointwise(files: map<string, seq<string>>, paths: seq<string>, removeId: int, remap: map<int, int>)
    requires Distinct(paths)
    ensures forall p :: p in files ==>
      AfterLabels(files, paths, removeId, remap)[p] ==
        if p in paths && Touched(files[p], removeId, remap) then Rewritten(files[p], removeId, remap) else files[p]
    decreases |paths|
  {
    if paths != [] {
      var front := paths[..|paths| - 1];
      var q := paths[|paths| - 1];
      LastNotInFront(paths);
      AfterLabelsPointwise(files, front, removeId, remap);
      assert paths == front + [q];
      forall p | p in files
        ensures AfterLabels(files, paths, removeId, remap)[p] ==
          if p in paths && Touched(files[p], removeId, remap) then Rewritten(files[p], removeId, remap) else files[p]
      {
        if p != q {
          assert p in paths <==> p in front;
        }
      }
    }
  }

  lemma {:induction false} AfterFastPointwise(files: map<string, seq<string>>, paths: seq<string>, unwritable: set<string>)
    requires Distinct(paths)
    ensures forall p :: p in files ==>
      AfterFast(files, paths, unwritable)[p] == if p in paths && FastChanges(files, p, unwritable) then Pass(files[p]) else files[p]
    decreases |paths|
  {
    if paths != [] {
      var front := paths[..|paths| - 1];
      var q := paths[|paths| - 1];
      LastNotInFront(paths);
      AfterFastPointwise(files, front, unwritable);
      assert paths == front + [q];
      forall p | p in files
        ensures AfterFast(files, paths, unwritable)[p] ==
          if p in paths && FastChanges(files, p, unwritable) then Pass(files[p]) else files[p]
      {
        if p != q {
          assert p in paths <==> p in front;
        }
      }
    }
  }

  /** The number of 1s `process_file` returns: files the fast script rewrote. */
  function Rewrites(files: map<string, seq<string>>, paths: seq<string>, unwritable: set<string>): (r: nat)
    ensures r <= |paths|
    decreases |paths|
  {
    if paths == [] then 0
    else
      var front := paths[..|paths| - 1];
      Rewrites(files, front, unwritable) + (if FastChanges(AfterFast(files, front, unwritable), paths[|paths| - 1], unwritable) then 1 else 0)
  }

  lemma LastNotInFront(paths: seq<string>)
    requires Distinct(paths) && paths != []
    ensures paths[|paths| - 1] !in paths[..|paths| - 1]
    ensures Distinct(paths[..|paths| - 1])
  {
    var front := paths[..|paths| - 1];
    forall i | 0 <= i < |front| ensures front[i] != paths[|paths| - 1] {
      assert paths[i] != paths[|paths| - 1];
    }
  }

  /** Earlier files do not affect whether a later, different file changes. */
  lemma ChangesUnaffected(files: map<string, seq<string>>, front: seq<string>, q: string, unwritable: set<string>)
    requires Distinct(front) && q !in front
    ensures FastChanges(AfterFast(files, front, unwritable), q, unwritable) == FastChanges(files, q, unwritable)
  {
    AfterFastPointwise(files, front, unwritable);
  }

  lemma ChangedSetSnoc(files: map<string, seq<string>>, front: seq<string>, q: string, unwritable: set<string>)
    ensures (set p | p in front + [q] && FastChanges(files, p, unwritable)) ==
      (set p | p in front && FastChanges(files, p, unwritable)) + (if FastChanges(files, q, unwritable) then {q} else {})
  {
  }

  /** Over distinct paths, `changed_count` counts the listed files that exist, have a touched line and are writable. */
  lemma {:induction false} RewritesCounts(files: map<string, seq<string>>, paths: seq<string>, unwritable: set<string>)
    requires Distinct(paths)
    ensures Rewrites(files, paths, unwritable) == |set p | p in paths && FastChanges(files, p, unwritable)|
    decreases |paths|
  {
    if paths == [] {
      assert (set p | p in paths && FastChanges(files, p, unwritable)) == {};
    } else {
      var front := paths[..|paths| - 1];
      var q := paths[|paths| - 1];
      LastNotInFront(paths);
      RewritesCounts(files, front, unwritable);
      ChangesUnaffected(files, front, q, unwritable);
      assert paths == front + [q];
      ChangedSetSnoc(files, front, q, unwritable);
      var s0 := set p | p in front && FastChanges(files, p, unwritable);
      assert q !in s0;
    }
  }

  function Sum(xs: seq<int>): (r: int)
    decreases |xs|
  {
    if xs == [] then 0 else Sum(xs[..|xs| - 1]) + xs[|xs| - 1]
  }

  /** The loop over `results_in_order`: `changed_count` is the sum of the per-file results. */
  method Accumulate(results: seq<int>) returns (changedCount: int)
    ensures changedCount == Sum(results)
    ensures (forall i :: 0 <= i < |results| ==> 0 <= results[i] <= 1) ==> 0 <= changedCount <= |results|
  {
    changedCount := 0;
    for i := 0 to |results|
      invariant changedCount == Sum(results[..i])
      invariant (forall j :: 0 <= j < |results| ==> 0 <= results[j] <= 1) ==> 0 <= changedCount <= i
    {
      assert results[..i + 1][..i] == results[..i];
      changedCount := changedCount + results[i];
    }
    assert results[..|results|] == results;
  }

  /** The label files of one dataset, by path. */
  class LabelStore {
    var files: map<string, seq<string>>

    constructor (files: map<string, seq<string>>)
      ensures this.files == files
    {
      this.files := files;
    }

    /**
     * `process_labels`: every globbed file is read, rewritten by the loop,
     * and written back only when some line was removed or remapped. Opening
     * a file in `unreadable`, or a touched file in `unwritable`, raises and
     * leaves the remaining files unprocessed.
     */
    method ProcessLabels(paths: seq<string>, removeId: int, remap: map<int, int>,
                         unreadable: set<string>, unwritable: set<string>) returns (raised: bool)
      requires forall k :: 0 <= k < |paths| ==> paths[k] in files
      modifies this
      ensures var n := Completed(old(files), paths, removeId, remap, unreadable, unwritable);
        && (raised <==> n < |paths|)
        && files == AfterLabels(old(files), paths[..n], removeId, remap)
    {
      ghost var start := files;
      raised := false;
      var k := 0;
      while k < |paths|
        invariant 0 <= k <= |paths|
        invariant files == AfterLabels(start, paths[..k], removeId, remap)
        invariant Completed(start, paths[..k], removeId, remap, unreadable, unwritable) == k
      {
        LabelsStep(start, paths, k, removeId, remap, unreadable, unwritable);
        var p := paths[k];
        if p in unreadable {
          raised := true;
          CompletedStops(start, paths, k + 1, removeId, remap, unreadable, unwritable);
          return;
        }
        var lines := files[p];
        var newLines, modified := RewriteLines(lines, removeId, remap);
        if modified {
          if p in unwritable {
            raised := true;
            CompletedStops(start, paths, k + 1, removeId, remap, unreadable, unwritable);
            return;
          }
          files := files[p := newLines];
        }
        k := k + 1;
      }
      assert paths[..|paths|] == paths;
    }

    /**
     * `process_file`: 1 when the file was rewritten; 0 when no line was
     * touched, and 0 when reading or opening for writing raised (a missing
     * file, or a path in `unwritable`), the file then left as it was.
     */
    method ProcessFile(path: string, unwritable: set<string>) returns (res: int)
      modifies this
      ensures res == 1 <==> FastChanges(old(files), path, unwritable)
      ensures res == 0 || res == 1
      ensures files == if res == 1 then old(files)[path := Pass(old(files)[path])] else old(files)
    {
      if path !in files {
        return 0;
      }
      var newLines, modified := RewriteLines(files[path], FloodId, SmokeRemap);
      if modified {
        if path in unwritable {
          return 0;
        }
        files := files[path := newLines];
        return 1;
      }
      return 0;
    }

    /**
     * `process_dataset_parallel`, with the pool's map run in order: each
     * globbed file is processed, then `changed_count` adds up the results.
     */
    method ProcessDataset(paths: seq<string>, unwritable: set<string>) returns (changedCount: int)
      modifies this
      ensures files == AfterFast(old(files), paths, unwritable)
      ensures changedCount == Rewrites(old(files), paths, unwritable)
    {
      ghost var start := files;
      var results: seq<int> := [];
      for k := 0 to |paths|
        invariant files == AfterFast(start, paths[..k], unwritable)
        invariant |results| == k
        invariant Sum(results) == Rewrites(start, paths[..k], unwritable)
      {
        var p := paths[k];
        var res := ProcessFile(p, unwritable);
        assert paths[..k + 1][..k] == paths[..k];
        assert paths[..k + 1][k] == p;
        assert AfterFast(start, paths[..k + 1], unwritable) == files;
        assert Rewrites(start, paths[..k + 1], unwritable) == Rewrites(start, paths[..k], unwritable) + res;
        assert (results + [res])[..k] == results;
        results := results + [res];
      }
      assert paths[..|paths|] == paths;
      changedCount := Accumulate(results);
    }
  }

  // ----- data.yaml -----

  /** A value under a key of `data.yaml`, as far as `update_yaml` looks at it. */
  datatype YamlValue = YDict(entries: map<int, string>) | YList(items: seq<string>) | YScalar(text: string)

  /** The result of `update_yaml`: no file, an uncaught exception, or the document written back. */
  datatype YamlRun = Missing | Raised | Written(data: map<string, YamlValue>)

  /** The three classes left once flood is gone. */
  const ThreeNames := map[0 := "debris", 1 := "fire", 2 := "smoke"]

  ghost predicate OthersKept(before: map<string, YamlValue>, after: map<string, YamlValue>) {
    && (forall k :: k != "names" ==> (k in after <==> k in before))
    && forall k :: k in before && k != "names" ==> after[k] == before[k]
  }

  /**
   * `update_yaml` of `filter_classes.py`. `file` is None when the file does
   * not exist, and `Some(None)` when it loads as no document, on which the
   * `in` test raises. A dict of names becomes the three-class map; a list of
   * more than three names loses the one at index 2; anything else is kept.
   */
  function UpdateYaml(file: Option<Option<map<string, YamlValue>>>): (r: YamlRun)
    ensures r.Missing? <==> file.None?
    ensures r.Raised? <==> file == Some(None)
    ensures r.Written? ==> OthersKept(file.value.value, r.data)
    ensures r.Written? ==> ("names" in r.data <==> "names" in file.value.value)
    ensures r.Written? && "names" in r.data ==>
      var before := file.value.value["names"];
      var after := r.data["names"];
      && (before.YDict? ==> after == YDict(ThreeNames))
      && (before.YList? && |before.items| > 3 ==>
          after.YList? && |after.items| == |before.items| - 1 &&
          after.items[..2] == before.items[..2] && after.items[2..] == before.items[3..])
      && (before.YScalar? || (before.YList? && |before.items| <= 3) ==> after == before)
  {
    match file
    case None => Missing
    case Some(None) => Raised
    case Some(Some(data)) =>
      if "names" in data then
        match data["names"]
        case YDict(_) => Written(data["names" := YDict(ThreeNames)])
        case YList(items) =>
          if |items| > 3 then Written(data["names" := YList(items[..2] + items[3..])]) else Written(data)
        case YScalar(_) => Written(data)
      else Written(data)
  }

  /** `update_yaml` of the fast script: names always become the three-class map. */
  function UpdateYamlFast(file: Option<Option<map<string, YamlValue>>>): (r: YamlRun)
    ensures r.Missing? <==> file.None?
    ensures r.Raised? <==> file == Some(None)
    ensures r.Written? ==> OthersKept(file.value.value, r.data)
    ensures r.Written? ==> "names" in r.data && r.data["names"] == YDict(ThreeNames)
  {
    match file
    case None => Missing
    case Some(None) => Raised
    case Some(Some(data)) => Written(data["names" := YDict(ThreeNames)])
  }

  /** The fast script's update is safe to run again. */
  lemma UpdateYamlFastIdempotent(data: map<string, YamlValue>)
    ensures UpdateYamlFast(Some(Some(UpdateYamlFast(Some(Some(data))).data))) == UpdateYamlFast(Some(Some(data)))
  {
    var once := UpdateYamlFast(Some(Some(data))).data;
    assert once["names" := YDict(ThreeNames)] == once;
  }

  /** The list branch is not: a list of five or more names loses one name per run. */
  lemma UpdateYamlListRunsTwice(data: map<string, YamlValue>)
    requires "names" in data && data["names"].YList? && |data["names"].items| > 4
    ensures var once := UpdateYaml(Some(Some(data)));
      var twice := UpdateYaml(Some(Some(once.data)));
      |twice.data["names"].items| == |data["names"].items| - 2
  {
  }

  /** On the original four classes, both branches name the same three classes in the same order. */
  lemma FourClassListMatchesDict()
    ensures var data := map["names" := YList(["debris", "fire", "flood", "smoke"])];
      var after := UpdateYaml(Some(Some(data))).data["names"].items;
      |after| == 3 && forall i :: 0 <= i < 3 ==> after[i] == ThreeNames[i]
  {
    var items := ["debris", "fire", "flood", "smoke"];
    assert items[..2] + items[3..] == ["debris", "fire", "smoke"];
  }
}
