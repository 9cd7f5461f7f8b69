/** Lists of words kept in one text column: ",".join on the way in, split(",") on the way out. */
module CommaLists {

  const COMMA: char := ','

  predicate CommaFree(s: string) { COMMA !in s }

  /** ASCII white space as `str.strip` sees it. */
  predicate IsSpace(c: char) {
    c == ' ' || '\t' <= c <= '\r' || (28 as char) <= c <= (31 as char)
  }

  function Join(xs: seq<string>): string {
    if xs == [] then "" else if |xs| == 1 then xs[0] else xs[0] + [COMMA] + Join(xs[1..])
  }

  /** `s.split(",")` */
  function Fields(s: string): (fields: seq<string>)
    ensures |fields| >= 1
    ensures forall i :: 0 <= i < |fields| ==> CommaFree(fields[i])
  {
    if s == "" then [""]
    else
      var rest := Fields(s[1..]);
      if s[0] == COMMA then [""] + rest else [[s[0]] + rest[0]] + rest[1..]
  }

  function LStrip(s: string): (r: string)
    ensures r != "" ==> !IsSpace(r[0])
    ensures CommaFree(s) ==> CommaFree(r)
  {
    if s != "" && IsSpace(s[0]) then LStrip(s[1..]) else s
  }

  function RStrip(s: string): (r: string)
    ensures r <= s && (r != "" ==> !IsSpace(r[|r| - 1]))
    ensures CommaFree(s) ==> CommaFree(r)
  {
    if s != "" && IsSpace(s[|s| - 1]) then RStrip(s[..|s| - 1]) else s
  }

  function Strip(s: string): string { RStrip(LStrip(s)) }

  predicate AllBlank(s: string) {
    forall i :: 0 <= i < |s| ==> IsSpace(s[i])
  }

  /** What is left of `s` without the blanks around it. */
  ghost predicate IsCore(s: string, core: string) {
    && (exists i, j | 0 <= i <= j <= |s| :: core == s[i..j] && AllBlank(s[..i]) && AllBlank(s[j..]))
    && (core != "" ==> !IsSpace(core[0]) && !IsSpace(core[|core| - 1]))
  }

  lemma {:induction false} LStripDrops(s: string) returns (i: nat)
    ensures i <= |s| && LStrip(s) == s[i..] && AllBlank(s[..i])
  {
    i := 0;
    if s != "" && IsSpace(s[0]) {
      var j := LStripDrops(s[1..]);
      i := j + 1;
      assert s[..i] == [s[0]] + s[1..][..j];
    }
  }

  lemma {:induction false} RStripDrops(s: string) returns (j: nat)
    ensures j <= |s| && RStrip(s) == s[..j] && AllBlank(s[j..])
  {
    j := |s|;
    if s != "" && IsSpace(s[|s| - 1]) {
      j := RStripDrops(s[..|s| - 1]);
      assert s[j..] == s[..|s| - 1][j..] + [s[|s| - 1]];
      assert s[..|s| - 1][..j] == s[..j];
    }
  }

  lemma StripMeans(s: string)
    ensures IsCore(s, Strip(s)) && (Strip(s) == "" <==> AllBlank(s))
  {
    var i := LStripDrops(s);
    var j := RStripDrops(s[i..]);
    assert s[i..][..j] == s[i..i + j] && s[i..][j..] == s[i + j..];
    if Strip(s) == "" {
      assert s == s[..i] + s[i + j..];
    } else {
      assert s[i] == Strip(s)[0];
    }
  }

  /** `[v.strip() for v in fields if v.strip()]` */
  function Words(fields: seq<string>): seq<string> {
    if fields == [] then []
    else (if Strip(fields[0]) != "" then [Strip(fields[0])] else []) + Words(fields[1..])
  }

  /** The list a loader reads from a column. */
  function Items(s: string): seq<string> { Words(Fields(s)) }

  /** `[v for v in fields if v]` */
  function NonEmpty(fields: seq<string>): seq<string> {
    if fields == [] then []
    else (if fields[0] != "" then [fields[0]] else []) + NonEmpty(fields[1..])
  }

  /** The list of risk signals read back from a log. */
  function Signals(s: string): seq<string> { NonEmpty(Fields(s)) }

  ghost predicate AllCommaFree(xs: seq<string>) {
    forall i :: 0 <= i < |xs| ==> CommaFree(xs[i])
  }

  ghost predicate IsWord(x: string) {
    x != "" && CommaFree(x) && !IsSpace(x[0]) && !IsSpace(x[|x| - 1])
  }

  ghost predicate AllWords(xs: seq<string>) {
    forall i :: 0 <= i < |xs| ==> IsWord(xs[i])
  }

  lemma {:induction false} FieldsOfCommaFree(s: string)
    requires CommaFree(s)
    ensures Fields(s) == [s]
  {
    if s != "" {
      FieldsOfCommaFree(s[1..]);
      assert [s[0]] + s[1..] == s;
    }
  }

  /** A comma separates the fields on its two sides. */
  lemma {:induction false} FieldsAroundComma(a: string, b: string)
    ensures Fields(a + [COMMA] + b) == Fields(a) + Fields(b)
  {
    var s := a + [COMMA] + b;
    if a == "" {
      assert s[1..] == b;
    } else {
      assert s[1..] == a[1..] + [COMMA] + b;
      FieldsAroundComma(a[1..], b);
    }
  }

  /** Splitting undoes joining. */
  lemma {:induction false} FieldsOfJoin(xs: seq<string>)
    requires xs != [] && AllCommaFree(xs)
    ensures Fields(Join(xs)) == xs
  {
    FieldsOfCommaFree(xs[0]);
    if |xs| > 1 {
      FieldsOfJoin(xs[1..]);
      FieldsAroundComma(xs[0], Join(xs[1..]));
      assert [xs[0]] + xs[1..] == xs;
    }
  }

  lemma {:induction false} JoinOfFields(s: string)
    ensures Join(Fields(s)) == s
  {
    if s != "" {
      JoinOfFields(s[1..]);
      var rest := Fields(s[1..]);
      if s[0] == COMMA {
        assert ([""] + rest)[1..] == rest;
      } else {
        var head := [s[0]] + rest[0];
        assert ([head] + rest[1..])[1..] == rest[1..];
      }
    }
  }

  lemma StripKeepsWords(x: string)
    requires IsWord(x)
    ensures Strip(x) == x
  {
  }

  lemma {:induction false} WordsOfWords(xs: seq<string>)
    requires AllWords(xs)
    ensures Words(xs) == xs
  {
    if xs != [] {
      StripKeepsWords(xs[0]);
      WordsOfWords(xs[1..]);
      assert [xs[0]] + xs[1..] == xs;
    }
  }

  /** What is stored from a list of trimmed, non-blank, comma-free words is read back unchanged. */
  lemma ItemsOfJoin(xs: seq<string>)
    requires AllWords(xs)
    ensures Items(Join(xs)) == xs
  {
    if xs != [] {
      FieldsOfJoin(xs);
      WordsOfWords(xs);
    }
  }

  lemma StripMakesWords(s: string)
    requires CommaFree(s)
    ensures Strip(s) != "" ==> IsWord(Strip(s))
  {
    var l := LStrip(s);
    var r := RStrip(l);
    if r != "" {
      assert r[0] == l[0];
    }
  }

  lemma {:induction false} WordsAreWords(fields: seq<string>)
    requires AllCommaFree(fields)
    ensures AllWords(Words(fields))
  {
    if fields != [] {
      StripMakesWords(fields[0]);
      WordsAreWords(fields[1..]);
    }
  }

  /** Reading any column, storing the result and reading it again changes nothing. */
  lemma ItemsAreStable(s: string)
    ensures AllWords(Items(s)) && Items(Join(Items(s))) == Items(s)
  {
    WordsAreWords(Fields(s));
    ItemsOfJoin(Items(s));
  }

  lemma {:induction false} NonEmptyKeepsNonEmpty(xs: seq<string>)
    requires forall i :: 0 <= i < |xs| ==> xs[i] != ""
    ensures NonEmpty(xs) == xs
  {
    if xs != [] {
      NonEmptyKeepsNonEmpty(xs[1..]);
    }
  }

  /** A log gives back the list of signals it was written with. */
  lemma SignalsOfJoin(xs: seq<string>)
    requires AllCommaFree(xs) && forall i :: 0 <= i < |xs| ==> xs[i] != ""
    ensures Signals(Join(xs)) == xs
  {
    if xs != [] {
      FieldsOfJoin(xs);
      NonEmptyKeepsNonEmpty(xs);
    }
  }

  // ----- The risk-signal filter of the audit-log query

  predicate StartsWith(s: string, p: string) { p <= s }

  predicate EndsWith(s: string, p: string) { |p| <= |s| && s[|s| - |p|..] == p }

  predicate OccursAt(s: string, p: string, k: nat) {
    k + |p| <= |s| && s[k..k + |p|] == p
  }

  predicate Contains(s: string, p: string) {
    exists k: nat :: k <= |s| && OccursAt(s, p, k)
  }

  /** The WHERE clause: equals, starts with, ends with or contains between commas. */
  predicate SignalFilter(column: string, signal: string) {
    || column == signal
    || StartsWith(column, signal + [COMMA])
    || EndsWith(column, [COMMA] + signal)
    || Contains(column, [COMMA] + signal + [COMMA])
  }

  lemma FirstField(column: string, signal: string)
    requires CommaFree(signal) && StartsWith(column, signal + [COMMA])
    ensures signal in Fields(column)
  {
    var rest := column[|signal| + 1..];
    assert column == signal + [COMMA] + rest;
    FieldsAroundComma(signal, rest);
    FieldsOfCommaFree(signal);
  }

  lemma LastField(column: string, signal: string)
    requires CommaFree(signal) && EndsWith(column, [COMMA] + signal)
    ensures signal in Fields(column)
  {
    var front := column[..|column| - |signal| - 1];
    assert column == front + [COMMA] + signal;
    FieldsAroundComma(front, signal);
    FieldsOfCommaFree(signal);
  }

  lemma InnerField(column: string, signal: string, k: nat)
    requires CommaFree(signal) && OccursAt(column, [COMMA] + signal + [COMMA], k)
    ensures signal in Fields(column)
  {
    var front, rest := column[..k], column[k + 1..];
    assert column == front + [COMMA] + rest by {
      assert column[k] == ([COMMA] + signal + [COMMA])[0];
    }
    FieldsAroundComma(front, rest);
    assert StartsWith(rest, signal + [COMMA]) by {
      assert column[k..k + |signal| + 2][1..] == ([COMMA] + signal + [COMMA])[1..] == signal + [COMMA];
      assert rest[..|signal| + 1] == column[k..k + |signal| + 2][1..];
    }
    FirstField(rest, signal);
  }

  lemma FilterFindsOnlyFields(column: string, signal: string)
    requires CommaFree(signal) && SignalFilter(column, signal)
    ensures signal in Fields(column)
  {
    if column == signal {
      FieldsOfCommaFree(signal);
    } else if StartsWith(column, signal + [COMMA]) {
      FirstField(column, signal);
    } else if EndsWith(column, [COMMA] + signal) {
      LastField(column, signal);
    } else {
      var k: nat :| k <= |column| && OccursAt(column, [COMMA] + signal + [COMMA], k);
      InnerField(column, signal, k);
    }
  }

  lemma {:induction false} JoinAround(xs: seq<string>, ys: seq<string>)
    requires xs != [] && ys != []
    ensures Join(xs + ys) == Join(xs) + [COMMA] + Join(ys)
  {
    if |xs| == 1 {
      assert (xs + ys)[1..] == ys;
    } else {
      assert (xs + ys)[1..] == xs[1..] + ys;
      JoinAround(xs[1..], ys);
    }
  }

  lemma JoinStarts(signal: string, rest: seq<string>)
    requires rest != []
    ensures StartsWith(Join([signal] + rest), signal + [COMMA])
  {
    JoinAround([signal], rest);
    assert Join([signal]) == signal;
  }

  lemma JoinEnds(front: seq<string>, signal: string)
    requires front != []
    ensures EndsWith(Join(front + [signal]), [COMMA] + signal)
  {
    JoinAround(front, [signal]);
    assert Join([signal]) == signal;
    var column := Join(front) + [COMMA] + signal;
    assert column[|column| - |signal| - 1..] == [COMMA] + signal;
  }

  lemma OccursAfter(front: string, p: string, tail: string)
    requires StartsWith(tail, p)
    ensures OccursAt(front + [COMMA] + tail, [COMMA] + p, |front|)
  {
    var s := front + [COMMA] + tail;
    assert s[|front|..] == [COMMA] + tail;
    assert tail == p + tail[|p|..];
  }

  lemma JoinContains(front: seq<string>, signal: string, rest: seq<string>)
    requires front != [] && rest != []
    ensures OccursAt(Join(front + ([signal] + rest)), [COMMA] + (signal + [COMMA]), |Join(front)|)
  {
    JoinAround(front, [signal] + rest);
    JoinStarts(signal, rest);
    OccursAfter(Join(front), signal + [COMMA], Join([signal] + rest));
  }

  /** The column of a list in which the signal stands somewhere passes the filter. */
  lemma FilterFindsPlace(front: seq<string>, signal: string, rest: seq<string>)
    ensures SignalFilter(Join(front + ([signal] + rest)), signal)
  {
    if front == [] && rest == [] {
      assert front + ([signal] + rest) == [signal];
    } else if front == [] {
      assert front + ([signal] + rest) == [signal] + rest;
      JoinStarts(signal, rest);
    } else if rest == [] {
      assert front + ([signal] + rest) == front + [signal];
      JoinEnds(front, signal);
    } else {
      JoinContains(front, signal, rest);
      assert [COMMA] + (signal + [COMMA]) == [COMMA] + signal + [COMMA];
    }
  }

  lemma FilterFindsMember(xs: seq<string>, signal: string)
    requires signal in xs
    ensures SignalFilter(Join(xs), signal)
  {
    var i :| 0 <= i < |xs| && xs[i] == signal;
    assert xs == xs[..i] + ([signal] + xs[i + 1..]);
    FilterFindsPlace(xs[..i], signal, xs[i + 1..]);
  }

  lemma FilterFindsEveryField(column: string, signal: string)
    requires signal in Fields(column)
    ensures SignalFilter(column, signal)
  {
    JoinOfFields(column);
    FilterFindsMember(Fields(column), signal);
  }

  /** The filter selects a log exactly when the signal is one of the comma-separated fields. */
  lemma FilterIsMembership(column: string, signal: string)
    requires CommaFree(signal)
    ensures SignalFilter(column, signal) <==> signal in Fields(column)
  {
    if SignalFilter(column, signal) { FilterFindsOnlyFields(column, signal); }
    if signal in Fields(column) { FilterFindsEveryField(column, signal); }
  }
}
