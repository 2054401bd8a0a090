/** XML as the importers see it: a stream of events. `E` is the type of element
    names with the namespace prefix already dropped; text is still escaped. */
module Xml {
  import opened Wrappers
  import opened Text

  /** `Blank` is a self-closing element; the importers pass it over. */
  datatype Event<E> = Start(name: E) | End(name: E) | Chars(raw: string) | Blank(name: E)

  /** A well-formed piece of a document: elements and text side by side, each
      element with its children. */
  datatype Forest<E> =
    | Empty
    | Element(name: E, children: Forest<E>, next: Forest<E>)
    | Text(raw: string, next: Forest<E>)
    | SelfClosed(name: E, next: Forest<E>)

  /** The event stream of a forest. */
  function Flatten<E>(f: Forest<E>): seq<Event<E>> {
    match f
    case Empty => []
    case Element(name, children, next) => [Start(name)] + Flatten(children) + [End(name)] + Flatten(next)
    case Text(raw, next) => [Chars(raw)] + Flatten(next)
    case SelfClosed(name, next) => [Blank(name)] + Flatten(next)
  }

  /** Two pieces side by side. */
  function Join<E>(f: Forest<E>, g: Forest<E>): Forest<E> {
    match f
    case Empty => g
    case Element(name, children, next) => Element(name, children, Join(next, g))
    case Text(raw, next) => Forest.Text(raw, Join(next, g))
    case SelfClosed(name, next) => SelfClosed(name, Join(next, g))
  }

  lemma {:induction false} FlattenJoin<E>(f: Forest<E>, g: Forest<E>)
    ensures Flatten(Join(f, g)) == Flatten(f) + Flatten(g)
  {
    match f
    case Empty =>
    case SelfClosed(name, next) =>
      FlattenJoin(next, g);
      Regroup([Blank(name)], Flatten(next), Flatten(g));
    case Text(raw, next) =>
      FlattenJoin(next, g);
      Regroup([Chars(raw)], Flatten(next), Flatten(g));
    case Element(name, children, next) =>
      FlattenJoin(next, g);
      Regroup([Start(name)] + Flatten(children) + [End(name)], Flatten(next), Flatten(g));
  }

  /** The value of a text event: trimmed as the reader is told to, then unescaped.
      An empty value means that the reader reports no event at all. */
  function TextValue(raw: string): Option<string> {
    Unescape(TrimXml(raw))
  }

  // ---------- Character data ----------

  function Entity(c: char): string {
    match c
    case '&' => "&amp;"
    case '<' => "&lt;"
    case '>' => "&gt;"
    case '"' => "&quot;"
    case '\'' => "&apos;"
    case _ => [c]
  }

  function Esc(text: string): string {
    if text == [] then [] else Entity(text[0]) + Esc(text[1..])
  }

  predicate StartsWith(s: string, prefix: string) {
    |prefix| <= |s| && s[..|prefix|] == prefix
  }

  /** Resolve the five predefined entities; any other reference is an error. */
  function Unescape(s: string): (r: Option<string>)
    decreases |s|
  {
    if s == [] then Some([])
    else if s[0] != '&' then Prepend(s[0], Unescape(s[1..]))
    else if StartsWith(s, "&amp;") then Prepend('&', Unescape(s[5..]))
    else if StartsWith(s, "&lt;") then Prepend('<', Unescape(s[4..]))
    else if StartsWith(s, "&gt;") then Prepend('>', Unescape(s[4..]))
    else if StartsWith(s, "&quot;") then Prepend('"', Unescape(s[6..]))
    else if StartsWith(s, "&apos;") then Prepend('\'', Unescape(s[6..]))
    else None
  }

  function Prepend(c: char, rest: Option<string>): Option<string> {
    match rest
    case Some(s) => Some([c] + s)
    case None => None
  }

  /** Reading undoes escaping, for every text. */
  lemma {:induction false} UnescapeEsc(text: string)
    ensures Unescape(Esc(text)) == Some(text)
  {
    if text != [] {
      var c, rest := text[0], Esc(text[1..]);
      UnescapeEsc(text[1..]);
      UnescapeOne(c, rest);
      assert text == [c] + text[1..];
    }
  }

  lemma UnescapeOne(c: char, rest: string)
    ensures Unescape(Entity(c) + rest) == Prepend(c, Unescape(rest))
  {
    var s := Entity(c) + rest;
    assert s[|Entity(c)|..] == rest;
    assert s[..|Entity(c)|] == Entity(c);
    PrefixAt(s, "&amp;", 1);
    PrefixAt(s, "&amp;", 2);
    PrefixAt(s, "&lt;", 1);
    PrefixAt(s, "&gt;", 1);
    PrefixAt(s, "&quot;", 1);
  }

  lemma PrefixAt(s: string, prefix: string, i: nat)
    requires i < |prefix|
    ensures StartsWith(s, prefix) ==> s[i] == prefix[i]
  {
    if StartsWith(s, prefix) {
      assert s[i] == s[..|prefix|][i];
    }
  }

  predicate StartsEntity(s: string) {
    "&amp;" <= s || "&lt;" <= s || "&gt;" <= s || "&quot;" <= s || "&apos;" <= s
  }

  /** Escaped text holds nothing an XML reader takes for markup: no bracket and no quote of
      either kind, and no ampersand but one that starts a predefined entity. */
  lemma {:induction false} EscHoldsNoMarkup(text: string)
    ensures forall c | c in Esc(text) :: c !in {'<', '>', '"', '\''}
    ensures forall i | 0 <= i < |Esc(text)| && Esc(text)[i] == '&' :: StartsEntity(Esc(text)[i..])
  {
    if text != [] {
      var first, rest := Entity(text[0]), Esc(text[1..]);
      EscHoldsNoMarkup(text[1..]);
      EntityHoldsNoMarkup(text[0]);
      hide Entity;
      forall i | 0 <= i < |Esc(text)| && Esc(text)[i] == '&' ensures StartsEntity(Esc(text)[i..]) {
        if i == 0 {
          assert first <= Esc(text)[0..];
        } else {
          assert Esc(text)[i..] == rest[i - |first|..];
        }
      }
    }
  }

  lemma EntityHoldsNoMarkup(c: char)
    ensures forall x | x in Entity(c) :: x !in {'<', '>', '"', '\''}
    ensures '&' in Entity(c) ==> Entity(c) in {"&amp;", "&lt;", "&gt;", "&quot;", "&apos;"}
    ensures Entity(c) != [] && forall i | 0 < i < |Entity(c)| :: Entity(c)[i] != '&'
  {
  }

  /** What needs no escaping is left as it is. */
  lemma {:induction false} EscOfPlain(text: string)
    requires forall c | c in text :: c !in {'&', '<', '>', '"', '\''}
    ensures Esc(text) == text
  {
    if text != [] {
      assert text[0] in text && forall c | c in text[1..] :: c in text;
      EscOfPlain(text[1..]);
      assert text == [text[0]] + text[1..];
    }
  }

  // ---------- Trimming escaped text ----------

  lemma {:induction false} EscAppend(s: string, t: string)
    ensures Esc(s + t) == Esc(s) + Esc(t)
  {
    hide Entity;
    if s == [] {
      assert s + t == t;
    } else {
      EscAppend(s[1..], t);
      assert (s + t)[1..] == s[1..] + t;
      Regroup(Entity(s[0]), Esc(s[1..]), Esc(t));
    }
  }

  lemma EntityEnds(c: char)
    ensures Entity(c) != []
    ensures IsXmlSpace(c) ==> Entity(c) == [c]
    ensures !IsXmlSpace(c) ==> !IsXmlSpace(Entity(c)[0]) && !IsXmlSpace(Entity(c)[|Entity(c)| - 1])
  {
  }

  lemma {:induction false} TrimStartEsc(s: string)
    ensures TrimStart(Esc(s), IsXmlSpace) == Esc(TrimStart(s, IsXmlSpace))
  {
    if s != [] {
      EntityEnds(s[0]);
      if IsXmlSpace(s[0]) {
        TrimStartEsc(s[1..]);
        assert Esc(s)[1..] == Esc(s[1..]);
      }
    }
  }

  lemma {:induction false} TrimEndEsc(s: string)
    ensures TrimEnd(Esc(s), IsXmlSpace) == Esc(TrimEnd(s, IsXmlSpace))
  {
    if s != [] {
      var front, c := s[..|s| - 1], s[|s| - 1];
      EntityEnds(c);
      EscAppend(front, [c]);
      assert s == front + [c];
      assert Esc([c]) == Entity(c) + Esc([]) == Entity(c);
      if IsXmlSpace(c) {
        TrimEndEsc(front);
        assert Esc(s)[..|Esc(s)| - 1] == Esc(front);
      } else {
        assert Esc(s)[|Esc(s)| - 1] == Entity(c)[|Entity(c)| - 1];
      }
    }
  }

  lemma TrimEsc(s: string)
    ensures TrimXml(Esc(s)) == Esc(TrimXml(s))
  {
    TrimStartEsc(s);
    TrimEndEsc(TrimStart(s, IsXmlSpace));
  }
}
