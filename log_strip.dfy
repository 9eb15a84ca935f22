/** `dug-log-strip-001.py`: reads a DUG real-time QC log line by line,
    collapses runs of spaces, tracks the current shot point and collects
    four series of `(shot point, value)` records, then sorts each series by
    shot point. */
module LogStrip {
  import opened Wrappers
  import opened PyText

  // ------------------------------------------------------ double spaces

  predicate NoDoubleSpace(s: string)
  {
    forall i :: 0 <= i < |s| - 1 ==> !(s[i] == ' ' && s[i + 1] == ' ')
  }

  /** `s.replace('  ', ' ')`: each non-overlapping pair of spaces, scanned
      from the left, becomes one space. */
  function ReplaceDouble(s: string): (r: string)
    ensures |r| <= |s|
    ensures s != [] ==> r != [] && r[0] == s[0]
    decreases |s|
  {
    if |s| >= 2 && s[0] == ' ' && s[1] == ' ' then [' '] + ReplaceDouble(s[2..])
    else if s == [] then []
    else [s[0]] + ReplaceDouble(s[1..])
  }

  /** The reference: every maximal run of spaces becomes a single space. */
  function Collapse(s: string): (r: string)
    ensures s != [] ==> r != [] && r[0] == s[0]
    decreases |s|
  {
    if |s| >= 2 && s[0] == ' ' && s[1] == ' ' then Collapse(s[1..])
    else if s == [] then []
    else [s[0]] + Collapse(s[1..])
  }

  /** One replacement pass shortens the text exactly when it holds a
      double space, and leaves text without one unchanged. */
  lemma {:induction false} ReplaceDoubleShortens(s: string)
    ensures NoDoubleSpace(s) <==> |ReplaceDouble(s)| == |s|
    ensures NoDoubleSpace(s) ==> ReplaceDouble(s) == s
    decreases |s|
  {
    if |s| >= 2 && s[0] == ' ' && s[1] == ' ' {
      assert !NoDoubleSpace(s) by { assert s[0] == ' ' && s[1] == ' '; }
    } else if s != [] {
      ReplaceDoubleShortens(s[1..]);
      NoDoubleSpaceTail(s);
    }
  }

  /** A text is free of double spaces iff its tail is and it does not open
      with one. */
  lemma NoDoubleSpaceTail(s: string)
    requires s != []
    ensures NoDoubleSpace(s) <==> NoDoubleSpace(s[1..]) && !(|s| >= 2 && s[0] == ' ' && s[1] == ' ')
  {
    if NoDoubleSpace(s[1..]) && !(|s| >= 2 && s[0] == ' ' && s[1] == ' ') {
      forall i | 0 <= i < |s| - 1
        ensures !(s[i] == ' ' && s[i + 1] == ' ')
      {
        if i > 0 {
          assert s[i] == s[1..][i - 1] && s[i + 1] == s[1..][i];
        }
      }
    }
    if NoDoubleSpace(s) {
      forall i | 0 <= i < |s[1..]| - 1
        ensures !(s[1..][i] == ' ' && s[1..][i + 1] == ' ')
      {
        assert s[1..][i] == s[i + 1] && s[1..][i + 1] == s[i + 2];
      }
    }
  }

  /** The collapsed text has no double space. */
  lemma {:induction false} CollapseNoDouble(s: string)
    ensures NoDoubleSpace(Collapse(s))
    decreases |s|
  {
    if |s| >= 2 && s[0] == ' ' && s[1] == ' ' {
      CollapseNoDouble(s[1..]);
    } else if s != [] {
      CollapseNoDouble(s[1..]);
      var r := Collapse(s);
      assert r[1..] == Collapse(s[1..]);
      NoDoubleSpaceTail(r);
    }
  }

  /** Text without a double space is already collapsed. */
  lemma {:induction false} CollapseFixes(s: string)
    requires NoDoubleSpace(s)
    ensures Collapse(s) == s
    decreases |s|
  {
    if s != [] {
      NoDoubleSpaceTail(s);
      CollapseFixes(s[1..]);
    }
  }

  lemma CollapseIdempotent(s: string)
    ensures Collapse(Collapse(s)) == Collapse(s)
  {
    CollapseNoDouble(s);
    CollapseFixes(Collapse(s));
  }

  /** A space put in front merges with a leading space. */
  lemma CollapseConsSpace(x: string)
    ensures Collapse([' '] + x) == if x != [] && x[0] == ' ' then Collapse(x) else [' '] + Collapse(x)
  {
    assert ([' '] + x)[1..] == x;
  }

  /** One replacement pass does not change what the text collapses to. */
  lemma {:induction false} CollapseReplaceDouble(s: string)
    ensures Collapse(ReplaceDouble(s)) == Collapse(s)
    decreases |s|
  {
    if |s| >= 2 && s[0] == ' ' && s[1] == ' ' {
      var t := s[2..];
      CollapseReplaceDouble(t);
      CollapseConsSpace(ReplaceDouble(t));
      CollapseConsSpace(t);
      assert s[1..] == [' '] + t;
    } else if s != [] {
      var rest := ReplaceDouble(s[1..]);
      CollapseReplaceDouble(s[1..]);
      assert ([s[0]] + rest)[1..] == rest;
    }
  }

  /** Collapsing keeps every other character, in order. */
  lemma {:induction false} CollapseKeepsNonSpaces(s: string)
    ensures Remove(Collapse(s), ' ') == Remove(s, ' ')
    decreases |s|
  {
    if |s| >= 2 && s[0] == ' ' && s[1] == ' ' {
      CollapseKeepsNonSpaces(s[1..]);
    } else if s != [] {
      CollapseKeepsNonSpaces(s[1..]);
      assert ([s[0]] + Collapse(s[1..]))[1..] == Collapse(s[1..]);
    }
  }

  /** `rem_dbl_spaces`: replaces double spaces until a pass changes the
      length no more; the result is the collapsed text. */
  method RemDblSpaces(s: string) returns (r: string)
    ensures r == Collapse(s)
    ensures NoDoubleSpace(r)
  {
    r := s;
    var lenstr := 0;
    while |r| != lenstr
      invariant Collapse(r) == Collapse(s)
      invariant |r| == lenstr ==> NoDoubleSpace(r)
      decreases |r| + (if |r| == lenstr then 0 else 1)
    {
      ghost var prev := r;
      lenstr := |r|;
      r := ReplaceDouble(r);
      CollapseReplaceDouble(prev);
      ReplaceDoubleShortens(prev);
    }
    CollapseFixes(r);
  }

  // ------------------------------------------------------ the line scan

  /** A record of an integer series: shot point and value. */
  datatype IntRec = IntRec(sp: int, val: int)

  /** A record of a float series: shot point and the token `float()` reads,
      commas removed. */
  datatype TextRec = TextRec(sp: int, text: string)

  /** The current shot point and the four series. */
  datatype Series = Series(sp: int, procTime: seq<TextRec>, shotsBehind: seq<IntRec>,
                           parsingTen: seq<TextRec>, procTen: seq<TextRec>)

  const Empty := Series(0, [], [], [], [])

  /** `line.strip().split(' ')` of the collapsed line. */
  function Tokens(collapsed: string): (r: seq<string>)
    ensures |r| >= 1 && forall i :: 0 <= i < |r| ==> ' ' !in r[i]
    ensures JoinWith(r, ' ') == Strip(collapsed)
  {
    JoinSplit(Strip(collapsed), ' ');
    Split(Strip(collapsed), ' ')
  }

  /** `float(tok.replace(',', ''))` for a token of a float series: the
      commas go, and `floatOk` says whether `float()` accepts the rest. */
  function FloatToken(sline: seq<string>, k: nat, floatOk: string -> bool): Option<string>
  {
    if k < |sline| && floatOk(Remove(sline[k], ',')) then Some(Remove(sline[k], ',')) else None
  }

  /** The `shotsBehind` check: token 4 splits on `=` into two parts, the
      second all digits, and a positive shot point is current. */
  function ShotLag(sline: seq<string>, sp: int): (r: Option<Option<IntRec>>)
    ensures r.None? <==> |sline| < 4
    ensures r.Some? && r.value.Some? <==>
      && |sline| >= 4 && |Split(sline[3], '=')| == 2 && sp > 0 && IsDigitString(Split(sline[3], '=')[1])
    ensures r.Some? && r.value.Some? ==> r.value.value.sp == sp && r.value.value.val >= 0
    ensures r.Some? && r.value.Some? ==> PyInt(Split(sline[3], '=')[1]) == Some(r.value.value.val)
  {
    if |sline| < 4 then None
    else
      var shotLag := Split(sline[3], '=');
      if |shotLag| == 2 && sp > 0 && IsDigitString(shotLag[1]) then
        PyIntDigits(shotLag[1]);
        Some(Some(IntRec(sp, DigitsValue(shotLag[1]))))
      else Some(None)
  }

  /** The "Processing shot" check: token 4 becomes the current shot point
      and token 6 is recorded against it. */
  function ShotStep(st: Series, l: string, sline: seq<string>, floatOk: string -> bool): (r: Option<Series>)
    ensures !Contains(l, "Processing shot") ==> r == Some(st)
    ensures r.None? <==>
      && Contains(l, "Processing shot")
      && (|sline| < 4 || PyInt(sline[3]).None? || FloatToken(sline, 5, floatOk).None?)
    ensures r.Some? && Contains(l, "Processing shot") ==>
      && r.value == st.(sp := r.value.sp, procTime := r.value.procTime)
      && |r.value.procTime| == |st.procTime| + 1 && r.value.procTime[..|st.procTime|] == st.procTime
      && |sline| >= 6 && PyInt(sline[3]) == Some(r.value.sp)
      && r.value.procTime[|st.procTime|] == TextRec(r.value.sp, Remove(sline[5], ','))
  {
    if !Contains(l, "Processing shot") then Some(st)
    else if |sline| < 4 then None
    else match PyInt(sline[3])
      case None => None
      case Some(v) =>
        match FloatToken(sline, 5, floatOk)
        case None => None
        case Some(t) => Some(st.(sp := v, procTime := st.procTime + [TextRec(v, t)]))
  }

  /** The "shotsBehind" check. */
  function LagStep(st: Series, l: string, sline: seq<string>): (r: Option<Series>)
    ensures !Contains(l, "shotsBehind") ==> r == Some(st)
    ensures r.None? <==> Contains(l, "shotsBehind") && |sline| < 4
    ensures Contains(l, "shotsBehind") && |sline| >= 4 ==>
      r == Some(match ShotLag(sline, st.sp).value
                case Some(rec) => st.(shotsBehind := st.shotsBehind + [rec])
                case None => st)
    ensures r.Some? ==>
      && r.value == st.(shotsBehind := r.value.shotsBehind)
      && |st.shotsBehind| <= |r.value.shotsBehind| <= |st.shotsBehind| + 1
      && r.value.shotsBehind[..|st.shotsBehind|] == st.shotsBehind
    ensures r.Some? && |r.value.shotsBehind| > |st.shotsBehind| ==>
      Contains(l, "shotsBehind") && r.value.shotsBehind[|st.shotsBehind|].sp == st.sp > 0
      && r.value.shotsBehind[|st.shotsBehind|].val >= 0
  {
    if !Contains(l, "shotsBehind") then Some(st)
    else match ShotLag(sline, st.sp)
      case None => None
      case Some(None) => Some(st)
      case Some(Some(rec)) => Some(st.(shotsBehind := st.shotsBehind + [rec]))
  }

  /** The "Parsing 10 files took average" check: token 8 is recorded
      against the current shot point. */
  function ParsingStep(st: Series, l: string, sline: seq<string>, floatOk: string -> bool): (r: Option<Series>)
    ensures !Contains(l, "Parsing 10 files took average") ==> r == Some(st)
    ensures r.None? <==> Contains(l, "Parsing 10 files took average") && FloatToken(sline, 7, floatOk).None?
    ensures r.Some? && Contains(l, "Parsing 10 files took average") ==>
      |sline| >= 8 && r.value == st.(parsingTen := st.parsingTen + [TextRec(st.sp, Remove(sline[7], ','))])
  {
    if !Contains(l, "Parsing 10 files took average") then Some(st)
    else match FloatToken(sline, 7, floatOk)
      case None => None
      case Some(t) => Some(st.(parsingTen := st.parsingTen + [TextRec(st.sp, t)]))
  }

  /** The "Processing 10 shots took average" check: token 8 is recorded
      against the current shot point. */
  function ProcTenStep(st: Series, l: string, sline: seq<string>, floatOk: string -> bool): (r: Option<Series>)
    ensures !Contains(l, "Processing 10 shots took average") ==> r == Some(st)
    ensures r.None? <==> Contains(l, "Processing 10 shots took average") && FloatToken(sline, 7, floatOk).None?
    ensures r.Some? && Contains(l, "Processing 10 shots took average") ==>
      |sline| >= 8 && r.value == st.(procTen := st.procTen + [TextRec(st.sp, Remove(sline[7], ','))])
  {
    if !Contains(l, "Processing 10 shots took average") then Some(st)
    else match FloatToken(sline, 7, floatOk)
      case None => None
      case Some(t) => Some(st.(procTen := st.procTen + [TextRec(st.sp, t)]))
  }

  /** The four checks on a collapsed line `l` and its tokens `sline`.
      They are independent: one line may feed several series. */
  function ScanTokens(st: Series, l: string, sline: seq<string>, floatOk: string -> bool): Option<Series>
  {
    var st1 :- ShotStep(st, l, sline, floatOk);
    var st2 :- LagStep(st1, l, sline);
    var st3 :- ParsingStep(st2, l, sline, floatOk);
    ProcTenStep(st3, l, sline, floatOk)
  }

  /** One line of the log; `None` where the script raises. */
  function ScanLine(st: Series, line: string, floatOk: string -> bool): Option<Series>
  {
    var l := Collapse(line);
    ScanTokens(st, l, Tokens(l), floatOk)
  }

  /** What the checks do to the state: the shot point moves only on a
      "Processing shot" line; each float series grows by one record exactly
      when its pattern is found, and records are only ever appended. */
  lemma ScanTokensEffect(st: Series, l: string, sline: seq<string>, floatOk: string -> bool)
    requires ScanTokens(st, l, sline, floatOk).Some?
    ensures var r := ScanTokens(st, l, sline, floatOk).value;
      && (!Contains(l, "Processing shot") ==> r.sp == st.sp)
      && |r.procTime| == |st.procTime| + (if Contains(l, "Processing shot") then 1 else 0)
      && |r.parsingTen| == |st.parsingTen| + (if Contains(l, "Parsing 10 files took average") then 1 else 0)
      && |r.procTen| == |st.procTen| + (if Contains(l, "Processing 10 shots took average") then 1 else 0)
      && r.procTime[..|st.procTime|] == st.procTime
      && r.parsingTen[..|st.parsingTen|] == st.parsingTen
      && r.procTen[..|st.procTen|] == st.procTen
  {
    var st1 := ShotStep(st, l, sline, floatOk).value;
    var st2 := LagStep(st1, l, sline).value;
    var st3 := ParsingStep(st2, l, sline, floatOk).value;
    var r := ProcTenStep(st3, l, sline, floatOk).value;
    assert r.sp == st1.sp && r.procTime == st1.procTime;
    assert st1.parsingTen == st.parsingTen && st1.procTen == st.procTen;
    assert st2.parsingTen == st.parsingTen && st2.procTen == st.procTen;
    assert r.parsingTen == st3.parsingTen && st3.procTen == st.procTen;
  }

  /** The `shotsBehind` series grows by at most one record per line, only
      on a "shotsBehind" line, and the new record carries the current
      (positive) shot point and a non-negative count. */
  lemma ScanTokensShotsBehind(st: Series, l: string, sline: seq<string>, floatOk: string -> bool)
    requires ScanTokens(st, l, sline, floatOk).Some?
    ensures var r := ScanTokens(st, l, sline, floatOk).value;
      && |st.shotsBehind| <= |r.shotsBehind| <= |st.shotsBehind| + 1
      && r.shotsBehind[..|st.shotsBehind|] == st.shotsBehind
      && (|r.shotsBehind| > |st.shotsBehind| ==>
            Contains(l, "shotsBehind") && r.shotsBehind[|st.shotsBehind|].sp == r.sp > 0
            && r.shotsBehind[|st.shotsBehind|].val >= 0)
  {
    var st1 := ShotStep(st, l, sline, floatOk).value;
    var st2 := LagStep(st1, l, sline).value;
    var st3 := ParsingStep(st2, l, sline, floatOk).value;
    var r := ProcTenStep(st3, l, sline, floatOk).value;
    assert st1.shotsBehind == st.shotsBehind;
    assert r.shotsBehind == st2.shotsBehind && r.sp == st2.sp && st2.sp == st1.sp;
  }

  /** The whole log, line by line from the top; `None` where a line raises. */
  function ScanLog(lines: seq<string>, floatOk: string -> bool): Option<Series>
    decreases |lines|
  {
    if lines == [] then Some(Empty)
    else
      var st :- ScanLog(lines[..|lines| - 1], floatOk);
      ScanLine(st, lines[|lines| - 1], floatOk)
  }

  /** Every `shotsBehind` record carries a positive shot point and a
      non-negative count. */
  predicate ShotsBehindPositive(st: Series)
  {
    forall k :: 0 <= k < |st.shotsBehind| ==> st.shotsBehind[k].sp > 0 && st.shotsBehind[k].val >= 0
  }

  lemma {:induction false} ScanLogShotsBehind(lines: seq<string>, floatOk: string -> bool)
    requires ScanLog(lines, floatOk).Some?
    ensures ShotsBehindPositive(ScanLog(lines, floatOk).value)
    decreases |lines|
  {
    if lines != [] {
      var init := lines[..|lines| - 1];
      ScanLogShotsBehind(init, floatOk);
      var st := ScanLog(init, floatOk).value;
      ScanLineShotsBehind(st, lines[|lines| - 1], floatOk);
    }
  }

  lemma ScanLineShotsBehind(st: Series, line: string, floatOk: string -> bool)
    requires ShotsBehindPositive(st) && ScanLine(st, line, floatOk).Some?
    ensures ShotsBehindPositive(ScanLine(st, line, floatOk).value)
  {
    var l := Collapse(line);
    ScanTokensPositive(st, l, Tokens(l), floatOk);
  }

  /** The checks on one line keep every `shotsBehind` record positive. */
  lemma ScanTokensPositive(st: Series, l: string, sline: seq<string>, floatOk: string -> bool)
    requires ShotsBehindPositive(st) && ScanTokens(st, l, sline, floatOk).Some?
    ensures ShotsBehindPositive(ScanTokens(st, l, sline, floatOk).value)
  {
    var r := ScanTokens(st, l, sline, floatOk).value;
    ScanTokensShotsBehind(st, l, sline, floatOk);
    ExtendPositive(st.shotsBehind, r.shotsBehind);
  }

  /** Extending a positive series by at most one positive record keeps it positive. */
  lemma ExtendPositive(a: seq<IntRec>, b: seq<IntRec>)
    requires forall k :: 0 <= k < |a| ==> a[k].sp > 0 && a[k].val >= 0
    requires |a| <= |b| <= |a| + 1 && b[..|a|] == a
    requires |b| > |a| ==> b[|a|].sp > 0 && b[|a|].val >= 0
    ensures forall k :: 0 <= k < |b| ==> b[k].sp > 0 && b[k].val >= 0
  {
    forall k | 0 <= k < |b|
      ensures b[k].sp > 0 && b[k].val >= 0
    {
      if k < |a| {
        assert b[k] == b[..|a|][k];
      }
    }
  }

  /** A line that raises ends the script: no later line can undo it. */
  lemma {:induction false} ScanLogStops(lines: seq<string>, k: nat, floatOk: string -> bool)
    requires k <= |lines| && ScanLog(lines[..k], floatOk).None?
    ensures ScanLog(lines, floatOk).None?
    decreases |lines|
  {
    if k < |lines| {
      var init := lines[..|lines| - 1];
      assert init[..k] == lines[..k];
      ScanLogStops(init, k, floatOk);
    } else {
      assert lines[..k] == lines;
    }
  }

  /** One more line continues the scan from where the earlier lines left it. */
  lemma ScanLogNext(lines: seq<string>, i: nat, floatOk: string -> bool)
    requires i < |lines|
    ensures ScanLog(lines[..i + 1], floatOk) ==
      if ScanLog(lines[..i], floatOk).None? then None
      else ScanLine(ScanLog(lines[..i], floatOk).value, lines[i], floatOk)
  {
    assert lines[..i + 1][..i] == lines[..i];
  }

  /** The script's module-level scan state: the current shot point and the
      four lists the main loop appends to. */
  class LogScan {
    var sp: int
    var procTimeList: seq<TextRec>
    var shotsBehindList: seq<IntRec>
    var parsingTenList: seq<TextRec>
    var procTenList: seq<TextRec>

    function Snapshot(): Series
      reads this
    {
      Series(sp, procTimeList, shotsBehindList, parsingTenList, procTenList)
    }

    /** `sp = 0` and four empty lists. */
    constructor ()
      ensures Snapshot() == Empty
    {
      sp, procTimeList, shotsBehindList, parsingTenList, procTenList := 0, [], [], [], [];
    }

    /** The "Processing shot" check; `false` where it raises. */
    method ShotCheck(line: string, sline: seq<string>, floatOk: string -> bool) returns (ok: bool)
      modifies this
      ensures ok == ShotStep(old(Snapshot()), line, sline, floatOk).Some?
      ensures ok ==> Snapshot() == ShotStep(old(Snapshot()), line, sline, floatOk).value
    {
      ok := true;
      if Contains(line, "Processing shot") {
        if |sline| < 4 || PyInt(sline[3]).None? {
          return false;
        }
        sp := PyInt(sline[3]).value;
        if |sline| < 6 || !floatOk(Remove(sline[5], ',')) {
          return false;
        }
        procTimeList := procTimeList + [TextRec(sp, Remove(sline[5], ','))];
      }
    }

    /** The "shotsBehind" check; `false` where it raises. */
    method LagCheck(line: string, sline: seq<string>) returns (ok: bool)
      modifies this
      ensures ok == LagStep(old(Snapshot()), line, sline).Some?
      ensures ok ==> Snapshot() == LagStep(old(Snapshot()), line, sline).value
    {
      ok := true;
      if Contains(line, "shotsBehind") {
        if |sline| < 4 {
          return false;
        }
        var shotLag := Split(sline[3], '=');
        if |shotLag| == 2 && sp > 0 {
          if IsDigitString(shotLag[1]) {
            shotsBehindList := shotsBehindList + [IntRec(sp, DigitsValue(shotLag[1]))];
          }
        }
      }
    }

    /** The "Parsing 10 files took average" check; `false` where it raises. */
    method ParsingCheck(line: string, sline: seq<string>, floatOk: string -> bool) returns (ok: bool)
      modifies this
      ensures ok == ParsingStep(old(Snapshot()), line, sline, floatOk).Some?
      ensures ok ==> Snapshot() == ParsingStep(old(Snapshot()), line, sline, floatOk).value
    {
      ok := true;
      if Contains(line, "Parsing 10 files took average") {
        if |sline| < 8 || !floatOk(Remove(sline[7], ',')) {
          return false;
        }
        parsingTenList := parsingTenList + [TextRec(sp, Remove(sline[7], ','))];
      }
    }

    /** The "Processing 10 shots took average" check; `false` where it raises. */
    method ProcTenCheck(line: string, sline: seq<string>, floatOk: string -> bool) returns (ok: bool)
      modifies this
      ensures ok == ProcTenStep(old(Snapshot()), line, sline, floatOk).Some?
      ensures ok ==> Snapshot() == ProcTenStep(old(Snapshot()), line, sline, floatOk).value
    {
      ok := true;
      if Contains(line, "Processing 10 shots took average") {
        if |sline| < 8 || !floatOk(Remove(sline[7], ',')) {
          return false;
        }
        procTenList := procTenList + [TextRec(sp, Remove(sline[7], ','))];
      }
    }

    /** The body of the main loop for one line; `false` where it raises. */
    method ScanOne(raw: string, floatOk: string -> bool) returns (ok: bool)
      modifies this
      ensures ok == ScanLine(old(Snapshot()), raw, floatOk).Some?
      ensures ok ==> Snapshot() == ScanLine(old(Snapshot()), raw, floatOk).value
    {
      var line := RemDblSpaces(raw);
      var sline := Split(Strip(line), ' ');
      ok := ShotCheck(line, sline, floatOk);
      if !ok {
        return;
      }
      ok := LagCheck(line, sline);
      if !ok {
        return;
      }
      ok := ParsingCheck(line, sline, floatOk);
      if !ok {
        return;
      }
      ok := ProcTenCheck(line, sline, floatOk);
    }
  }

  /** The main loop over the log's lines; a line that raises ends the
      script. */
  method ParseLog(lines: seq<string>, floatOk: string -> bool) returns (r: Option<Series>)
    ensures r == ScanLog(lines, floatOk)
  {
    var scan := new LogScan();
    for i := 0 to |lines|
      invariant ScanLog(lines[..i], floatOk) == Some(scan.Snapshot())
    {
      ScanLogNext(lines, i, floatOk);
      var ok := scan.ScanOne(lines[i], floatOk);
      if !ok {
        ScanLogStops(lines, i + 1, floatOk);
        return None;
      }
    }
    assert lines[..|lines|] == lines;
    r := Some(scan.Snapshot());
  }

  // ------------------------------------------------------------ sorting

  /** `le` orders every pair and is transitive. */
  ghost predicate TotalPreorder<T(!new)>(le: (T, T) -> bool)
  {
    && (forall x, y :: le(x, y) || le(y, x))
    && (forall x, y, z :: le(x, y) && le(y, z) ==> le(x, z))
  }

  predicate SortedBy<T>(s: seq<T>, le: (T, T) -> bool)
  {
    forall i, j :: 0 <= i < j < |s| ==> le(s[i], s[j])
  }

  /** `order='sp'` on the float series: by shot point. */
  predicate BySp(x: TextRec, y: TextRec)
  {
    x.sp <= y.sp
  }

  /** `order='sp'` on `shotsBehind`: by shot point, ties broken by the
      remaining field, the count. */
  predicate BySpThenVal(x: IntRec, y: IntRec)
  {
    x.sp < y.sp || (x.sp == y.sp && x.val <= y.val)
  }

  /** Inside the insertion pass over `s[..i+1]`: every pair not involving
      the moving record at `j` is in order ... */
  ghost predicate OrderedApart<T>(s: seq<T>, i: nat, j: nat, le: (T, T) -> bool)
    requires i < |s|
  {
    forall k, l :: 0 <= k < l <= i && k != j && l != j ==> le(s[k], s[l])
  }

  /** ... and the moving record is in order with everything after it. */
  ghost predicate OrderedAfter<T>(s: seq<T>, i: nat, j: nat, le: (T, T) -> bool)
    requires j <= i < |s|
  {
    forall l :: j < l <= i ==> le(s[j], s[l])
  }

  /** Swapping the moving record one place down keeps both facts. */
  lemma SwapDown<T(!new)>(s: seq<T>, i: nat, j: nat, le: (T, T) -> bool)
    requires TotalPreorder(le) && 0 < j <= i < |s|
    requires OrderedApart(s, i, j, le) && OrderedAfter(s, i, j, le) && !le(s[j - 1], s[j])
    ensures var t := s[j - 1 := s[j]][j := s[j - 1]];
      && OrderedApart(t, i, j - 1, le) && OrderedAfter(t, i, j - 1, le) && multiset(t) == multiset(s)
  {
    var t := s[j - 1 := s[j]][j := s[j - 1]];
    assert le(s[j], s[j - 1]);
    forall k, l | 0 <= k < l <= i && k != j - 1 && l != j - 1
      ensures le(t[k], t[l])
    {
      if l == j {
        assert t[l] == s[j - 1];
      } else if k == j {
        assert t[k] == s[j - 1];
      }
    }
    forall l | j - 1 < l <= i
      ensures le(t[j - 1], t[l])
    {
    }
  }

  /** When the moving record stops, the prefix is sorted. */
  lemma InsertDone<T(!new)>(s: seq<T>, i: nat, j: nat, le: (T, T) -> bool)
    requires TotalPreorder(le) && j <= i < |s|
    requires OrderedApart(s, i, j, le) && OrderedAfter(s, i, j, le) && (j == 0 || le(s[j - 1], s[j]))
    ensures SortedBy(s[..i + 1], le)
  {
    forall k, l | 0 <= k < l <= i
      ensures le(s[k], s[l])
    {
      if k == j {
      } else if l == j {
        assert le(s[k], s[j - 1]) || k == j - 1;
      }
    }
  }

  /** Sorts the records in place (insertion sort by swaps): afterwards they
      are in order and are the same records. */
  method SortInPlace<T(!new)>(a: array<T>, le: (T, T) -> bool)
    requires TotalPreorder(le)
    modifies a
    ensures SortedBy(a[..], le)
    ensures multiset(a[..]) == multiset(old(a[..]))
  {
    for i := 0 to a.Length
      invariant SortedBy(a[..i], le)
      invariant multiset(a[..]) == multiset(old(a[..]))
    {
      InsertAt(a, i, le);
    }
    assert a[..a.Length] == a[..];
  }

  /** One insertion: the record at `i` moves down past every record that
      is not in order with it. */
  method InsertAt<T(!new)>(a: array<T>, i: nat, le: (T, T) -> bool)
    requires TotalPreorder(le) && i < a.Length && SortedBy(a[..i], le)
    modifies a
    ensures SortedBy(a[..i + 1], le)
    ensures multiset(a[..]) == multiset(old(a[..]))
  {
    var j := i;
    assert OrderedApart(a[..], i, j, le) by {
      assert forall k :: 0 <= k < i ==> a[..i][k] == a[k];
    }
    while j > 0 && !le(a[j - 1], a[j])
      invariant 0 <= j <= i
      invariant multiset(a[..]) == multiset(old(a[..]))
      invariant OrderedApart(a[..], i, j, le) && OrderedAfter(a[..], i, j, le)
    {
      ghost var s := a[..];
      SwapDown(s, i, j, le);
      a[j - 1], a[j] := a[j], a[j - 1];
      assert a[..] == s[j - 1 := s[j]][j := s[j - 1]];
      j := j - 1;
    }
    InsertDone(a[..], i, j, le);
  }

  /** A series turned into an array, sorted, and read back. */
  method SortSeries<T(!new)>(s: seq<T>, le: (T, T) -> bool) returns (r: seq<T>)
    requires TotalPreorder(le)
    ensures SortedBy(r, le) && multiset(r) == multiset(s)
  {
    var a := new T[|s|](i requires 0 <= i < |s| => s[i]);
    assert a[..] == s;
    SortInPlace(a, le);
    r := a[..];
  }

  // ------------------------------------------------- numpy conversion

  /** A value numpy's default integer (64-bit) can hold. */
  predicate FitsInt64(x: int)
  {
    -0x8000_0000_0000_0000 <= x < 0x8000_0000_0000_0000
  }

  predicate TextFits(s: seq<TextRec>)
  {
    forall i :: 0 <= i < |s| ==> FitsInt64(s[i].sp)
  }

  /** Every integer field the four `np.array` calls convert fits in 64
      bits; otherwise the conversion raises `OverflowError`. */
  predicate ArraysFit(st: Series)
  {
    && TextFits(st.procTime)
    && (forall i :: 0 <= i < |st.shotsBehind| ==>
          FitsInt64(st.shotsBehind[i].sp) && FitsInt64(st.shotsBehind[i].val))
    && TextFits(st.parsingTen)
    && TextFits(st.procTen)
  }

  /** The script up to the plots: the scan, the conversion to numpy arrays,
      then each series sorted by shot point. */
  method StripLog(lines: seq<string>, floatOk: string -> bool) returns (r: Option<Series>)
    ensures r.Some? <==> ScanLog(lines, floatOk).Some? && ArraysFit(ScanLog(lines, floatOk).value)
    ensures r.Some? ==>
      var s := ScanLog(lines, floatOk).value;
      && r.value.sp == s.sp
      && multiset(r.value.procTime) == multiset(s.procTime) && SortedBy(r.value.procTime, BySp)
      && multiset(r.value.shotsBehind) == multiset(s.shotsBehind) && SortedBy(r.value.shotsBehind, BySpThenVal)
      && multiset(r.value.parsingTen) == multiset(s.parsingTen) && SortedBy(r.value.parsingTen, BySp)
      && multiset(r.value.procTen) == multiset(s.procTen) && SortedBy(r.value.procTen, BySp)
  {
    var scanned := ParseLog(lines, floatOk);
    if scanned.None? || !ArraysFit(scanned.value) {
      return None;
    }
    var st := scanned.value;
    var procTime := SortSeries(st.procTime, BySp);
    var shotsBehind := SortSeries(st.shotsBehind, BySpThenVal);
    var parsingTen := SortSeries(st.parsingTen, BySp);
    var procTen := SortSeries(st.procTen, BySp);
    r := Some(Series(st.sp, procTime, shotsBehind, parsingTen, procTen));
  }
}
