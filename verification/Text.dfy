/** The few string operations the upload page and the router rely on. */
module Text {

  /** Cuts s at every sep, as the standard split of both languages does: never empty, "" gives [""]. */
  function Split(s: string, sep: char): (r: seq<string>)
    ensures r != []
  {
    if s == "" then [""]
    else
      var rest := Split(s[1..], sep);
      if s[0] == sep then [""] + rest else [[s[0]] + rest[0]] + rest[1..]
  }

  function Join(parts: seq<string>, sep: char): string
    requires parts != []
  {
    if |parts| == 1 then parts[0] else parts[0] + [sep] + Join(parts[1..], sep)
  }

  lemma {:induction false} SplitConcat(head: string, tail: string, sep: char)
    requires sep !in head
    ensures Split(head + [sep] + tail, sep) == [head] + Split(tail, sep)
  {
    var s := head + [sep] + tail;
    if head == "" {
      assert s[1..] == tail;
    } else {
      assert s[1..] == head[1..] + [sep] + tail;
      SplitConcat(head[1..], tail, sep);
      assert [s[0]] + head[1..] == head;
    }
  }

  lemma {:induction false} SplitWhole(s: string, sep: char)
    requires sep !in s
    ensures Split(s, sep) == [s]
  {
    if s != "" {
      SplitWhole(s[1..], sep);
      assert [s[0]] + s[1..] == s;
    }
  }

  /** Splitting undoes joining, provided no part holds the separator. */
  lemma {:induction false} SplitJoin(parts: seq<string>, sep: char)
    requires parts != [] && forall p | p in parts :: sep !in p
    ensures Split(Join(parts, sep), sep) == parts
  {
    if |parts| == 1 {
      SplitWhole(parts[0], sep);
    } else {
      SplitConcat(parts[0], Join(parts[1..], sep), sep);
      SplitJoin(parts[1..], sep);
    }
  }

  /** Joining undoes splitting, always; and no part of a split holds the separator. */
  lemma {:induction false} JoinSplit(s: string, sep: char)
    ensures Join(Split(s, sep), sep) == s
    ensures forall p | p in Split(s, sep) :: sep !in p
  {
    if s != "" {
      JoinSplit(s[1..], sep);
      var rest := Split(s[1..], sep);
      assert s == [s[0]] + s[1..];
      var parts := Split(s, sep);
      if s[0] == sep {
        assert parts[1..] == rest;
      } else if |rest| > 1 {
        assert parts[1..] == rest[1..];
        assert [s[0]] + rest[0] + [sep] + Join(rest[1..], sep) == [s[0]] + (rest[0] + [sep] + Join(rest[1..], sep));
      }
    }
  }

  /** A separator at the end adds one empty part. */
  lemma {:induction false} SplitTrailing(s: string, sep: char)
    ensures Split(s + [sep], sep) == Split(s, sep) + [""]
  {
    var t := s + [sep];
    if s == "" {
      assert t[1..] == "";
    } else {
      assert t[1..] == s[1..] + [sep] && t[0] == s[0];
      SplitTrailing(s[1..], sep);
      var rest := Split(s[1..], sep);
      assert (rest + [""])[1..] == rest[1..] + [""];
    }
  }

  /** The last part is empty exactly when nothing follows the last separator. */
  lemma {:induction false} SplitEnd(s: string, sep: char)
    ensures var parts := Split(s, sep); parts[|parts| - 1] == "" <==> s == "" || s[|s| - 1] == sep
  {
    if s != "" {
      SplitEnd(s[1..], sep);
    }
  }

  /** The white space and line terminators of ECMAScript (ECMA-262, sections 12.2 and 12.3). */
  predicate Blank(c: char) {
    || '\U{0009}' <= c <= '\U{000D}' || c == ' ' || c == '\U{00A0}' || c == '\U{1680}' || '\U{2000}' <= c <= '\U{200A}'
    || c == '\U{2028}' || c == '\U{2029}' || c == '\U{202F}' || c == '\U{205F}' || c == '\U{3000}' || c == '\U{FEFF}'
  }

  function Trim(s: string): string {
    if s == "" then s
    else if Blank(s[0]) then Trim(s[1..])
    else if Blank(s[|s| - 1]) then Trim(s[..|s| - 1])
    else s
  }

  /** s is t with blanks around it. */
  predicate Padded(s: string, a: string, t: string, b: string) {
    s == a + t + b && (forall c | c in a :: Blank(c)) && (forall c | c in b :: Blank(c))
  }

  lemma PadFront(c: char, s: string, a: string, t: string, b: string)
    requires Blank(c) && Padded(s, a, t, b)
    ensures Padded([c] + s, [c] + a, t, b)
  {
    hide Blank;
    assert [c] + (a + t + b) == [c] + a + t + b;
  }

  lemma PadBack(c: char, s: string, a: string, t: string, b: string)
    requires Blank(c) && Padded(s, a, t, b)
    ensures Padded(s + [c], a, t, b + [c])
  {
    hide Blank;
    assert a + t + b + [c] == a + t + (b + [c]);
  }

  /** Trimming takes blanks off both ends, and all of them. */
  lemma {:induction false} TrimForm(s: string) returns (a: string, b: string)
    ensures Padded(s, a, Trim(s), b)
    ensures var t := Trim(s); t != "" ==> !Blank(t[0]) && !Blank(t[|t| - 1])
  {
    hide Blank, Padded;
    var n := |s| - 1;
    a, b := "", "";
    if s == "" {
      NoPadding(s);
    } else if Blank(s[0]) {
      a, b := TrimForm(s[1..]);
      PadFront(s[0], s[1..], a, Trim(s), b);
      assert [s[0]] + s[1..] == s;
      a := [s[0]] + a;
    } else if Blank(s[n]) {
      a, b := TrimForm(s[..n]);
      PadBack(s[n], s[..n], a, Trim(s), b);
      assert s[..n] + [s[n]] == s;
      b := b + [s[n]];
    } else {
      NoPadding(s);
    }
  }

  lemma NoPadding(s: string)
    ensures Padded(s, "", s, "")
  {
  }

  function LowerChar(c: char): char {
    if 'A' <= c <= 'Z' then (c as int + 32) as char else c
  }

  function Lower(s: string): (r: string)
    ensures |r| == |s|
  {
    seq(|s|, i requires 0 <= i < |s| => LowerChar(s[i]))
  }

  /** The same letter, in whatever case; other characters only match themselves. */
  predicate SameLetter(a: char, b: char) {
    a == b || ('A' <= a <= 'Z' && b as int == a as int + 32) || ('A' <= b <= 'Z' && a as int == b as int + 32)
  }

  lemma LowerIsCaseBlind(a: char, b: char)
    ensures LowerChar(a) == LowerChar(b) <==> SameLetter(a, b)
  {
  }

  predicate LineBreak(c: char) { c == '\n' || c == '\r' || c == '\U{2028}' || c == '\U{2029}' }

  predicate OneLine(s: string) { forall c | c in s :: !LineBreak(c) }

  /** The text before the first slash that no line break follows, or all of s when there is none. */
  function Base(s: string): string {
    if s == "" || (s[0] == '/' && OneLine(s)) then "" else [s[0]] + Base(s[1..])
  }

  /** In a name of two parts on one line, the base is the part before the slash; without a slash it is the whole. */
  lemma {:induction false} BaseOfParts(a: string, b: string)
    requires '/' !in a && OneLine(b)
    ensures OneLine(a) ==> Base(a + "/" + b) == a
    ensures Base(a) == a
  {
    var s := a + "/" + b;
    if a == "" {
      assert s[0] == '/' && OneLine(s);
    } else {
      assert s[1..] == a[1..] + "/" + b;
      BaseOfParts(a[1..], b);
      assert a == [a[0]] + a[1..];
    }
  }

  predicate EndsWith(s: string, suffix: string) {
    |suffix| <= |s| && s[|s| - |suffix|..] == suffix
  }

  /** Whether s.indexOf(part, start) finds part: a negative start counts as zero. */
  predicate OccursFrom(s: string, part: string, start: int) {
    exists p | 0 <= p <= |s| :: start <= p && OccursAt(s, part, p)
  }

  predicate OccursAt(s: string, part: string, p: nat) {
    p + |part| <= |s| && s[p..p + |part|] == part
  }

  /** Searching from |s| - |part| is a suffix test, also where that start is negative. */
  lemma OccursFromTail(s: string, part: string)
    ensures OccursFrom(s, part, |s| - |part|) <==> EndsWith(s, part)
  {
    var p := |s| - |part|;
    if p >= 0 {
      assert s[p..p + |part|] == s[p..];
      assert EndsWith(s, part) <==> OccursAt(s, part, p);
    }
  }
}
