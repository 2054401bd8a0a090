/** Strings the way the importers cut them: trimming and splitting. */
module Text {
  import opened Wrappers

  /** White space as `char::is_whitespace` has it. */
  predicate IsSpace(c: char) {
    || c in {' ', '\t', '\n', '\r'}
    || c as int in {0x0B, 0x0C, 0x85, 0xA0, 0x1680, 0x2028, 0x2029, 0x202F, 0x205F, 0x3000}
    || 0x2000 <= c as int <= 0x200A
  }

  /** White space as XML has it. */
  predicate IsXmlSpace(c: char) {
    c in {' ', '\t', '\n', '\r'}
  }

  function TrimStart(s: string, space: char -> bool): string {
    if s != [] && space(s[0]) then TrimStart(s[1..], space) else s
  }

  function TrimEnd(s: string, space: char -> bool): string {
    if s != [] && space(s[|s| - 1]) then TrimEnd(s[..|s| - 1], space) else s
  }

  function TrimWith(s: string, space: char -> bool): string {
    TrimEnd(TrimStart(s, space), space)
  }

  /** `str::trim` */
  function Trim(s: string): string {
    TrimWith(s, IsSpace)
  }

  /** What an XML reader with `trim_text` keeps of a text node. */
  function TrimXml(s: string): string {
    TrimWith(s, IsXmlSpace)
  }

  /** Nothing to trim at either end. */
  predicate IsTrimmed(s: string) {
    s == [] || (!IsSpace(s[0]) && !IsSpace(s[|s| - 1]))
  }

  lemma TrimIsTrimmed(s: string)
    ensures IsTrimmed(Trim(s))
  {
    TrimStartOfTrimmed(s, IsSpace);
    TrimEndEnds(TrimStart(s, IsSpace));
  }

  lemma {:induction false} TrimEndEnds(s: string)
    ensures var t := TrimEnd(s, IsSpace); t != [] ==> t[0] == s[0] && !IsSpace(t[|t| - 1])
  {
    if s != [] && IsSpace(s[|s| - 1]) {
      TrimEndEnds(s[..|s| - 1]);
    }
  }

  lemma TrimIsInside(s: string, c: char)
    requires c in Trim(s)
    ensures c in s
  {
    StartIsInside(s, c);
    EndIsInside(TrimStart(s, IsSpace), c);
  }

  lemma {:induction false} StartIsInside(s: string, c: char)
    ensures c in TrimStart(s, IsSpace) ==> c in s
  {
    if s != [] && IsSpace(s[0]) {
      StartIsInside(s[1..], c);
    }
  }

  lemma {:induction false} EndIsInside(s: string, c: char)
    ensures c in TrimEnd(s, IsSpace) ==> c in s
  {
    if s != [] && IsSpace(s[|s| - 1]) {
      EndIsInside(s[..|s| - 1], c);
    }
  }

  lemma {:induction false} TrimStartOfTrimmed(s: string, space: char -> bool)
    ensures TrimStart(s, space) == [] || !space(TrimStart(s, space)[0])
    ensures TrimStart(s, space) == [] <==> forall i | 0 <= i < |s| :: space(s[i])
  {
    if s != [] && space(s[0]) {
      TrimStartOfTrimmed(s[1..], space);
      assert forall i | 0 < i < |s| :: s[i] == s[1..][i - 1];
    }
  }

  predicate IsBlank(line: string) {
    Trim(line) == ""
  }

  lemma BlankMeansAllSpace(s: string, i: nat)
    requires i < |s| && !IsSpace(s[i])
    ensures !IsBlank(s)
  {
    TrimStartOfTrimmed(s, IsSpace);
    var t := TrimStart(s, IsSpace);
    TrimEndKeepsInk(t, 0);
  }

  lemma {:induction false} TrimEndKeepsInk(t: string, i: nat)
    requires i < |t| && !IsSpace(t[i])
    ensures TrimEnd(t, IsSpace) != []
  {
    if IsSpace(t[|t| - 1]) {
      TrimEndKeepsInk(t[..|t| - 1], i);
    }
  }

  /** Blank is nothing but white space. */
  lemma BlankIffAllSpace(s: string)
    ensures IsBlank(s) <==> forall i | 0 <= i < |s| :: IsSpace(s[i])
  {
    TrimStartOfTrimmed(s, IsSpace);
    if i :| 0 <= i < |s| && !IsSpace(s[i]) {
      BlankMeansAllSpace(s, i);
    }
  }

  /** Trimming takes white space from both ends and nothing else. */
  lemma TrimTakesTheEnds(s: string) returns (i: nat, j: nat)
    ensures i <= j <= |s| && Trim(s) == s[i..j] && IsTrimmed(s[i..j])
    ensures forall k | 0 <= k < i || j <= k < |s| :: IsSpace(s[k])
  {
    TrimIsTrimmed(s);
    i := StartIsASuffix(s);
    var n := EndIsAPrefix(s[i..]);
    j := i + n;
    assert s[i..][..n] == s[i..j];
    assert forall k | j <= k < |s| :: s[k] == s[i..][k - i];
  }

  lemma {:induction false} StartIsASuffix(s: string) returns (i: nat)
    ensures i <= |s| && TrimStart(s, IsSpace) == s[i..]
    ensures forall k | 0 <= k < i :: IsSpace(s[k])
  {
    if s != [] && IsSpace(s[0]) {
      i := StartIsASuffix(s[1..]);
      assert forall k | 0 < k < i + 1 :: s[k] == s[1..][k - 1];
      assert s[1..][i..] == s[i + 1..];
      i := i + 1;
    } else {
      i := 0;
    }
  }

  lemma {:induction false} EndIsAPrefix(s: string) returns (n: nat)
    ensures n <= |s| && TrimEnd(s, IsSpace) == s[..n]
    ensures forall k | n <= k < |s| :: IsSpace(s[k])
  {
    if s != [] && IsSpace(s[|s| - 1]) {
      n := EndIsAPrefix(s[..|s| - 1]);
      assert s[..|s| - 1][..n] == s[..n];
    } else {
      n := |s|;
    }
  }

  lemma TrimOfTrimmed(s: string)
    requires IsTrimmed(s)
    ensures Trim(s) == s
  {
  }

  /** Trimming the smaller class of white space first changes nothing. */
  lemma TrimAbsorbsTrimXml(s: string)
    ensures Trim(TrimXml(s)) == Trim(s)
  {
    var t := TrimStart(s, IsXmlSpace);
    StartAbsorbs(s);
    EndOfTrimmedStart(t);
  }

  lemma {:induction false} StartAbsorbs(s: string)
    ensures TrimStart(TrimStart(s, IsXmlSpace), IsSpace) == TrimStart(s, IsSpace)
  {
    if s != [] && IsXmlSpace(s[0]) {
      StartAbsorbs(s[1..]);
    }
  }

  /** Removing XML white space at the end commutes with trimming. */
  lemma {:induction false} EndOfTrimmedStart(t: string)
    ensures TrimEnd(TrimStart(TrimEnd(t, IsXmlSpace), IsSpace), IsSpace) == TrimEnd(TrimStart(t, IsSpace), IsSpace)
    decreases |t|
  {
    if t != [] && IsXmlSpace(t[|t| - 1]) {
      var front := t[..|t| - 1];
      EndOfTrimmedStart(front);
      DropLastSpace(front, t[|t| - 1]);
      assert t == front + [t[|t| - 1]];
    }
  }

  lemma {:induction false} DropLastSpace(front: string, c: char)
    requires IsSpace(c)
    ensures TrimEnd(TrimStart(front + [c], IsSpace), IsSpace) == TrimEnd(TrimStart(front, IsSpace), IsSpace)
  {
    if front == [] {
      assert front + [c] == [c] && [c][1..] == [];
    } else if IsSpace(front[0]) {
      assert (front + [c])[1..] == front[1..] + [c];
      DropLastSpace(front[1..], c);
    } else {
      assert (front + [c])[..|front|] == front;
    }
  }

  /** `split_once(sep)`: the parts before and after the first separator. */
  function SplitOnce(s: string, sep: char): Option<(string, string)> {
    if s == [] then None
    else if s[0] == sep then Some(([], s[1..]))
    else match SplitOnce(s[1..], sep)
      case Some(parts) => Some(([s[0]] + parts.0, parts.1))
      case None => None
  }

  /** The pair `(whole, frac)` every number reader starts from: without a
      separator the fraction is empty. */
  function WholeAndFraction(s: string, sep: char): (string, string) {
    match SplitOnce(s, sep)
    case Some(parts) => parts
    case None => (s, "")
  }

  lemma {:induction false} SplitOnceFinds(before: string, sep: char, after: string)
    requires sep !in before
    ensures SplitOnce(before + [sep] + after, sep) == Some((before, after))
  {
    var s := before + [sep] + after;
    if before != [] {
      assert s[1..] == before[1..] + [sep] + after;
      SplitOnceFinds(before[1..], sep, after);
      assert before == [before[0]] + before[1..];
    } else {
      assert s[1..] == after;
    }
  }

  lemma {:induction false} SplitOnceCuts(s: string, sep: char)
    ensures
      match SplitOnce(s, sep)
      case None => sep !in s
      case Some(parts) => sep !in parts.0 && s == parts.0 + [sep] + parts.1 && |parts.1| < |s|
  {
    if s != [] {
      SplitOnceCuts(s[1..], sep);
      assert s == [s[0]] + s[1..];
    }
  }

  /** `replace(from, to)` for single characters. */
  function ReplaceChar(s: string, from: char, to: char): (t: string)
    ensures |t| == |s|
  {
    seq(|s|, i requires 0 <= i < |s| => if s[i] == from then to else s[i])
  }

  lemma ReplaceAbsent(s: string, from: char, to: char)
    requires from !in s
    ensures ReplaceChar(s, from, to) == s
  {
  }

  /** `trim_start_matches(['-', '+'])` */
  function DropSigns(s: string): string {
    if s != [] && (s[0] == '-' || s[0] == '+') then DropSigns(s[1..]) else s
  }
}
