/**
 * `extractAttributesFromString` of scripts/parseM3u.js: the `key="value"`
 * pairs of an `#EXTINF` line and the channel name after its last comma.
 *
 * The global expression `/([a-zA-Z0-9_-]+)=(["'])(.*?)\2/g` is modelled by
 * `MatchAt` (a match that starts at a given position), `Search` (the
 * leftmost match at or after `lastIndex`, which is what one `exec` call
 * finds) and `MatchesFrom` (the pairs the `while (regex.exec(line))` loop
 * visits). Positions are absolute, as `lastIndex` is.
 */
module Extinf {
  import opened Js

  /** The characters of `[a-zA-Z0-9_-]`. */
  predicate IsKeyChar(c: char) {
    IsUpperAscii(c) || IsLowerAscii(c) || IsDecimalDigit(c) || c == '_' || c == '-'
  }

  predicate IsQuote(c: char) { c == '"' || c == '\'' }

  /** One match of the attribute expression: its three groups, and the position after it (the new `lastIndex`). */
  datatype AttrMatch = AttrMatch(key: string, quote: char, value: string, end: nat)

  /** The text one attribute occupies in a line. */
  function AttributeText(key: string, quote: char, value: string): string {
    key + "=" + [quote] + value + [quote]
  }

  /** A key, quote and value the expression can capture. */
  predicate WellFormed(key: string, quote: char, value: string) {
    && |key| >= 1 && (forall i :: 0 <= i < |key| ==> IsKeyChar(key[i]))
    && IsQuote(quote) && quote !in value && NoLineTerminator(value)
  }

  // ---------------------------------------------------------------------
  // Scanning
  // ---------------------------------------------------------------------

  /** End of the run of key characters that starts at `p`. */
  function KeyEnd(s: string, p: nat): (e: nat)
    requires p <= |s|
    ensures p <= e <= |s|
    decreases |s| - p
  {
    if p == |s| || !IsKeyChar(s[p]) then p else KeyEnd(s, p + 1)
  }

  lemma {:induction false} KeyEndChars(s: string, p: nat)
    requires p <= |s|
    ensures forall i :: p <= i < KeyEnd(s, p) ==> IsKeyChar(s[i])
    ensures KeyEnd(s, p) < |s| ==> !IsKeyChar(s[KeyEnd(s, p)])
    decreases |s| - p
  {
    if p < |s| && IsKeyChar(s[p]) {
      KeyEndChars(s, p + 1);
    }
  }

  /** Position of the first `c` at or after `p`, or `|s|`. */
  function IndexFrom(s: string, p: nat, c: char): (k: nat)
    requires p <= |s|
    ensures p <= k <= |s|
    decreases |s| - p
  {
    if p == |s| || s[p] == c then p else IndexFrom(s, p + 1, c)
  }

  lemma {:induction false} IndexFromFirst(s: string, p: nat, c: char)
    requires p <= |s|
    ensures forall i :: p <= i < IndexFrom(s, p, c) ==> s[i] != c
    ensures IndexFrom(s, p, c) < |s| ==> s[IndexFrom(s, p, c)] == c
    decreases |s| - p
  {
    if p < |s| && s[p] != c {
      IndexFromFirst(s, p + 1, c);
    }
  }

  /** Position of the first line terminator at or after `p`, or `|s|`: how far `.*` reaches. */
  function LineEnd(s: string, p: nat): (k: nat)
    requires p <= |s|
    ensures p <= k <= |s|
    decreases |s| - p
  {
    if p == |s| || IsLineTerminator(s[p]) then p else LineEnd(s, p + 1)
  }

  lemma {:induction false} LineEndFirst(s: string, p: nat)
    requires p <= |s|
    ensures forall i :: p <= i < LineEnd(s, p) ==> !IsLineTerminator(s[i])
    ensures LineEnd(s, p) < |s| ==> IsLineTerminator(s[LineEnd(s, p)])
    decreases |s| - p
  {
    if p < |s| && !IsLineTerminator(s[p]) {
      LineEndFirst(s, p + 1);
    }
  }

  // ---------------------------------------------------------------------
  // The attribute expression
  // ---------------------------------------------------------------------

  /**
   * The expression matched at position `p`. The key run is greedy and `=` is
   * not a key character, so the key is the whole run; the lazy `.*?` stops at
   * the first closing quote, and fails at a line terminator.
   */
  function MatchAt(s: string, p: nat): (m: Option<AttrMatch>)
    requires p <= |s|
    ensures m.Some? ==> p < m.value.end <= |s|
  {
    var e := KeyEnd(s, p);
    if e == p || e + 2 > |s| || s[e] != '=' || !IsQuote(s[e + 1]) then None
    else
      var close := IndexFrom(s, e + 2, s[e + 1]);
      if close == |s| || LineEnd(s, e + 2) < close then None
      else Some(AttrMatch(s[p..e], s[e + 1], s[e + 2..close], close + 1))
  }

  /** A match is a well-formed attribute, and the text it covers is exactly that attribute. */
  lemma MatchAtSound(s: string, p: nat)
    requires p <= |s| && MatchAt(s, p).Some?
    ensures var m := MatchAt(s, p).value;
            WellFormed(m.key, m.quote, m.value) && s[p..m.end] == AttributeText(m.key, m.quote, m.value)
  {
    var e := KeyEnd(s, p);
    var q := s[e + 1];
    var close := IndexFrom(s, e + 2, q);
    KeyEndChars(s, p);
    IndexFromFirst(s, e + 2, q);
    LineEndFirst(s, e + 2);
    assert s[p..close + 1] == s[p..e] + "=" + [q] + s[e + 2..close] + [q];
  }

  /** One `regex.exec(line)` with `lastIndex == from`: the leftmost match at or after `from`, and where it starts. */
  function Search(s: string, from: nat): (r: Option<(nat, AttrMatch)>)
    requires from <= |s|
    ensures r.Some? ==> from <= r.value.0 < r.value.1.end <= |s|
    decreases |s| - from
  {
    if from == |s| then None
    else match MatchAt(s, from)
      case Some(m) => Some((from, m))
      case None => Search(s, from + 1)
  }

  /** What `exec` finds is a match, and no match starts earlier. */
  lemma {:induction false} SearchLeftmost(s: string, from: nat)
    requires from <= |s|
    ensures Search(s, from).Some? ==> MatchAt(s, Search(s, from).value.0) == Some(Search(s, from).value.1)
    ensures Search(s, from).Some? ==> forall i :: from <= i < Search(s, from).value.0 ==> MatchAt(s, i).None?
    ensures Search(s, from).None? ==> forall i :: from <= i < |s| ==> MatchAt(s, i).None?
    decreases |s| - from
  {
    if from < |s| && MatchAt(s, from).None? {
      SearchLeftmost(s, from + 1);
    }
  }

  /** The pairs the `exec` loop visits from `lastIndex == from` on, keys lower-cased, in order. */
  function MatchesFrom(s: string, from: nat): seq<(string, string)>
    requires from <= |s|
    decreases |s| - from
  {
    match Search(s, from)
    case None => []
    case Some((_, m)) => [(LowerAscii(m.key), m.value)] + MatchesFrom(s, m.end)
  }

  /** The one key a plain object does not store: `obj['__proto__'] = v` calls the prototype setter, which ignores a string. */
  const ProtoKey: string := "__proto__"

  /** `obj[key] = value` on a plain object whose values are strings. */
  function Assign(obj: map<string, string>, key: string, value: string): map<string, string> {
    if key == ProtoKey then obj else obj[key := value]
  }

  /** A JavaScript object filled by assignments in order: a later key overwrites an earlier one. */
  function ToMap(ps: seq<(string, string)>): map<string, string> {
    if ps == [] then map[] else Assign(ToMap(ps[..|ps| - 1]), ps[|ps| - 1].0, ps[|ps| - 1].1)
  }

  lemma Assoc<T>(x: seq<T>, y: seq<T>, z: seq<T>)
    ensures x + (y + z) == (x + y) + z
  {
  }

  /** The object after the `while` loop. */
  function AttributesOf(line: string): map<string, string> {
    ToMap(MatchesFrom(line, 0))
  }

  // ---------------------------------------------------------------------
  // The name after the last comma
  // ---------------------------------------------------------------------

  /** A comma at `i` that `/,(?!.*,)/` accepts: no further comma before the end of its line. */
  predicate IsFinalComma(s: string, i: nat)
    requires i < |s|
  {
    s[i] == ',' && LineEnd(s, i + 1) <= IndexFrom(s, i + 1, ',')
  }

  /** `line.match(/,(?!.*,)(.*)/)`, searching from `from`: the rest of the line after the leftmost accepted comma. */
  function LastCommaFrom(s: string, from: nat): Option<string>
    requires from <= |s|
    decreases |s| - from
  {
    if from == |s| then None
    else if IsFinalComma(s, from) then Some(s[from + 1..LineEnd(s, from + 1)])
    else LastCommaFrom(s, from + 1)
  }

  /** `nameAfterComma`: the trimmed capture, or `None` when the expression does not match. */
  function NameAfterComma(line: string): Option<string> {
    match LastCommaFrom(line, 0)
    case None => None
    case Some(rest) => Some(Trim(rest))
  }

  const ExtractedNameKey: string := "extractedChannelName"

  /** `attributes['tvg-name'] || nameAfterComma || 'Unknown'`. */
  function ExtractedName(attributes: map<string, string>, nameAfterComma: Option<string>): (name: string)
    ensures name != ""
    ensures "tvg-name" in attributes && attributes["tvg-name"] != "" ==> name == attributes["tvg-name"]
    ensures (!("tvg-name" in attributes && attributes["tvg-name"] != "") && nameAfterComma.Some?
             && nameAfterComma.value != "") ==> name == nameAfterComma.value
    ensures (!("tvg-name" in attributes && attributes["tvg-name"] != "")
             && !(nameAfterComma.Some? && nameAfterComma.value != "")) ==> name == "Unknown"
  {
    if "tvg-name" in attributes && attributes["tvg-name"] != "" then attributes["tvg-name"]
    else if nameAfterComma.Some? && nameAfterComma.value != "" then nameAfterComma.value
    else "Unknown"
  }

  /** The object `extractAttributesFromString(line)` returns. */
  function ExtractedAttributes(line: string): map<string, string> {
    var attributes := AttributesOf(line);
    attributes[ExtractedNameKey := ExtractedName(attributes, NameAfterComma(line))]
  }

  // ---------------------------------------------------------------------
  // Properties
  // ---------------------------------------------------------------------

  /** A key is stored exactly when some pair carries it and it is not `__proto__`. */
  lemma {:induction false} ToMapKeys(ps: seq<(string, string)>, k: string)
    ensures k in ToMap(ps) <==> k != ProtoKey && exists i :: 0 <= i < |ps| && ps[i].0 == k
  {
    if ps != [] {
      var init := ps[..|ps| - 1];
      ToMapKeys(init, k);
      if k in ToMap(init) {
        var i :| 0 <= i < |init| && init[i].0 == k;
        assert ps[i].0 == k;
      }
      if exists i :: 0 <= i < |ps| && ps[i].0 == k {
        var i :| 0 <= i < |ps| && ps[i].0 == k;
        if i < |init| { assert init[i].0 == k; }
      }
    }
  }

  /** A later duplicate key overwrites: the stored value is the one of the key's last occurrence. */
  lemma {:induction false} ToMapLastWins(ps: seq<(string, string)>, i: nat)
    requires i < |ps| && ps[i].0 != ProtoKey
    requires forall j :: i < j < |ps| ==> ps[j].0 != ps[i].0
    ensures ps[i].0 in ToMap(ps) && ToMap(ps)[ps[i].0] == ps[i].1
  {
    if i < |ps| - 1 {
      var init := ps[..|ps| - 1];
      assert forall j :: i < j < |init| ==> init[j] == ps[j];
      ToMapLastWins(init, i);
    }
  }

  /** The keys the loop stores are lower-case, as `match[1].toLowerCase()` makes them. */
  lemma {:induction false} MatchedKeysLowerCase(s: string, from: nat)
    requires from <= |s|
    ensures forall i, j :: 0 <= i < |MatchesFrom(s, from)| && 0 <= j < |MatchesFrom(s, from)[i].0|
                           ==> !IsUpperAscii(MatchesFrom(s, from)[i].0[j])
    decreases |s| - from
  {
    match Search(s, from)
    case None =>
    case Some((_, m)) =>
      MatchedKeysLowerCase(s, m.end);
      LowerAsciiChars(m.key);
      assert MatchesFrom(s, from) == [(LowerAscii(m.key), m.value)] + MatchesFrom(s, m.end);
  }

  /**
   * `extractedChannelName` has upper-case letters, so no attribute of the line
   * can collide with it: the returned object is the line's attributes plus that one key.
   */
  lemma ExtractedNameAddsOneKey(line: string)
    ensures ExtractedNameKey !in AttributesOf(line)
    ensures ExtractedNameKey in ExtractedAttributes(line) && ExtractedAttributes(line)[ExtractedNameKey] != ""
    ensures ExtractedAttributes(line) - {ExtractedNameKey} == AttributesOf(line)
  {
    var ps := MatchesFrom(line, 0);
    ToMapKeys(ps, ExtractedNameKey);
    MatchedKeysLowerCase(line, 0);
    assert IsUpperAscii(ExtractedNameKey[9]);
  }

  // ---------------------------------------------------------------------
  // A rendered line gives its attributes back
  // ---------------------------------------------------------------------

  /** An attribute as written in a line. */
  datatype Attribute = Attribute(key: string, quote: char, value: string)

  predicate Writable(a: Attribute) {
    WellFormed(a.key, a.quote, a.value)
  }

  function Text(a: Attribute): string {
    AttributeText(a.key, a.quote, a.value)
  }

  /** The attributes of an `#EXTINF` line, each preceded by a space. */
  function Render(attrs: seq<Attribute>): string {
    if attrs == [] then "" else " " + Text(attrs[0]) + Render(attrs[1..])
  }

  /** The pairs the loop should store for them: keys lower-cased, in order. */
  function Lowered(attrs: seq<Attribute>): seq<(string, string)> {
    if attrs == [] then [] else [(LowerAscii(attrs[0].key), attrs[0].value)] + Lowered(attrs[1..])
  }

  lemma {:induction false} KeyEndOfKey(s: string, p: nat, key: string)
    requires p + |key| < |s| && s[p..p + |key|] == key && !IsKeyChar(s[p + |key|])
    requires forall i :: 0 <= i < |key| ==> IsKeyChar(key[i])
    ensures KeyEnd(s, p) == p + |key|
    decreases |key|
  {
    if key != [] {
      assert s[p] == key[0];
      assert s[p + 1..p + |key|] == key[1..];
      KeyEndOfKey(s, p + 1, key[1..]);
    }
  }

  lemma {:induction false} IndexFromOfText(s: string, p: nat, c: char, v: string)
    requires p + |v| < |s| && s[p..p + |v|] == v && c !in v && s[p + |v|] == c
    ensures IndexFrom(s, p, c) == p + |v|
    decreases |v|
  {
    if v != [] {
      assert s[p] == v[0];
      assert s[p + 1..p + |v|] == v[1..];
      IndexFromOfText(s, p + 1, c, v[1..]);
    }
  }

  lemma {:induction false} LineEndOfText(s: string, p: nat, v: string)
    requires p + |v| <= |s| && s[p..p + |v|] == v && NoLineTerminator(v)
    ensures LineEnd(s, p) >= p + |v|
    decreases |v|
  {
    if v != [] {
      assert s[p] == v[0];
      assert s[p + 1..p + |v|] == v[1..];
      LineEndOfText(s, p + 1, v[1..]);
    }
  }

  lemma {:induction false} IndexFromAtMost(s: string, p: nat, c: char, e: nat)
    requires p <= e < |s| && s[e] == c
    ensures IndexFrom(s, p, c) <= e
    decreases e - p
  {
    if p < e && s[p] != c { IndexFromAtMost(s, p + 1, c, e); }
  }

  lemma {:induction false} IndexFromNone(s: string, p: nat, c: char)
    requires p <= |s| && forall i :: p <= i < |s| ==> s[i] != c
    ensures IndexFrom(s, p, c) == |s|
    decreases |s| - p
  {
    if p < |s| { IndexFromNone(s, p + 1, c); }
  }

  lemma {:induction false} LineEndAtLeast(s: string, p: nat, e: nat)
    requires p <= e <= |s|
    requires forall i :: p <= i < e ==> !IsLineTerminator(s[i])
    ensures LineEnd(s, p) >= e
    decreases e - p
  {
    if p < e { LineEndAtLeast(s, p + 1, e); }
  }

  /** An attribute written at `p`, seen part by part. */
  lemma TextParts(s: string, p: nat, a: Attribute)
    requires p + |Text(a)| <= |s| && s[p..p + |Text(a)|] == Text(a)
    ensures var e := p + |a.key|;
            var close := e + 2 + |a.value|;
            && close + 1 == p + |Text(a)|
            && s[p..e] == a.key && s[e] == '=' && s[e + 1] == a.quote
            && s[e + 2..close] == a.value && s[close] == a.quote
  {
    var t := Text(a);
    var k := |a.key|;
    var u := s[p..p + |t|];
    assert t[..k] == a.key && t[k] == '=' && t[k + 1] == a.quote;
    assert t[k + 2..k + 2 + |a.value|] == a.value && t[k + 2 + |a.value|] == a.quote;
    assert s[p..p + k] == u[..k];
    assert s[p + k + 2..p + k + 2 + |a.value|] == u[k + 2..k + 2 + |a.value|];
  }

  /** The expression matches a key, `=`, and a quoted value found at `p`. */
  lemma MatchAtParts(s: string, p: nat, key: string, q: char, value: string)
    requires WellFormed(key, q, value)
    requires p + |key| + 2 + |value| < |s|
    requires s[p..p + |key|] == key && s[p + |key|] == '=' && s[p + |key| + 1] == q
    requires s[p + |key| + 2..p + |key| + 2 + |value|] == value && s[p + |key| + 2 + |value|] == q
    ensures MatchAt(s, p) == Some(AttrMatch(key, q, value, p + |key| + 3 + |value|))
  {
    var e := p + |key|;
    KeyEndOfKey(s, p, key);
    IndexFromOfText(s, e + 2, q, value);
    LineEndOfText(s, e + 2, value);
  }

  /** Every well-formed attribute, wherever it is written, is matched where it starts. */
  lemma MatchAtAttribute(s: string, p: nat, a: Attribute)
    requires WellFormed(a.key, a.quote, a.value)
    requires p + |Text(a)| <= |s| && s[p..p + |Text(a)|] == Text(a)
    ensures MatchAt(s, p) == Some(AttrMatch(a.key, a.quote, a.value, p + |Text(a)|))
  {
    TextParts(s, p, a);
    MatchAtParts(s, p, a.key, a.quote, a.value);
  }

  lemma {:induction false} KeyEndAt(s: string, p: nat, e: nat)
    requires p <= e < |s| && !IsKeyChar(s[e])
    requires forall i :: p <= i < e ==> IsKeyChar(s[i])
    ensures KeyEnd(s, p) == e
    decreases e - p
  {
    if p < e { KeyEndAt(s, p + 1, e); }
  }

  /** `exec` passes over text with no `=` in it. */
  lemma {:induction false} SearchSkips(s: string, from: nat, to: nat)
    requires from <= to <= |s|
    requires forall i :: from <= i < to ==> s[i] != '='
    requires to == |s| || (s[to] != '=' && !IsKeyChar(s[to]))
    ensures Search(s, from) == Search(s, to)
    decreases |s| - from
  {
    if from < to {
      KeyEndChars(s, from);
      assert KeyEnd(s, from) < |s| ==> s[KeyEnd(s, from)] != '=';
      assert MatchAt(s, from).None?;
      SearchSkips(s, from + 1, to);
    }
  }

  /** Text `x + y` written at `p` is `x` written at `p` followed by `y`. */
  lemma SliceOfConcat(s: string, p: nat, x: string, y: string)
    requires p + |x| + |y| <= |s| && s[p..p + |x| + |y|] == x + y
    ensures s[p..p + |x|] == x && s[p + |x|..p + |x| + |y|] == y
  {
    assert s[p..p + |x|] == (x + y)[..|x|];
    assert s[p + |x|..p + |x| + |y|] == (x + y)[|x|..];
  }

  /** Rendered attributes written at `p`: a space, the first attribute, then the rest. */
  lemma RenderParts(s: string, p: nat, attrs: seq<Attribute>)
    requires attrs != []
    requires p + |Render(attrs)| <= |s| && s[p..p + |Render(attrs)|] == Render(attrs)
    ensures var q := p + 1 + |Text(attrs[0])|;
            var rr := Render(attrs[1..]);
            && q + |rr| == p + |Render(attrs)|
            && s[p] == ' ' && s[p + 1..q] == Text(attrs[0]) && s[q..q + |rr|] == rr
  {
    var t, rr := Text(attrs[0]), Render(attrs[1..]);
    var head := " " + t;
    var q := p + 1 + |t|;
    assert Render(attrs) == head + rr;
    assert |head| == 1 + |t| && |" "| == 1;
    SliceOfConcat(s, p, head, rr);
    assert s[q..q + |rr|] == rr;
    SliceOfConcat(s, p, " ", t);
    assert s[p + 1..q] == t;
    assert s[p] == s[p..p + 1][0];
  }

  /** At a space in front of an attribute, `exec` finds that attribute next. */
  lemma SearchAtSpace(s: string, p: nat, a: Attribute, q: nat)
    requires WellFormed(a.key, a.quote, a.value)
    requires q == p + 1 + |Text(a)| <= |s| && s[p] == ' ' && s[p + 1..q] == Text(a)
    ensures MatchesFrom(s, p) == [(LowerAscii(a.key), a.value)] + MatchesFrom(s, q)
  {
    KeyEndAt(s, p, p);
    assert MatchAt(s, p).None?;
    MatchAtAttribute(s, p + 1, a);
    assert Search(s, p) == Some((p + 1, AttrMatch(a.key, a.quote, a.value, q)));
  }

  /** The first of several rendered attributes is found first, and the rest stay written after it. */
  lemma FirstOfRender(s: string, p: nat, end: nat, attrs: seq<Attribute>) returns (q: nat)
    requires attrs != [] && Writable(attrs[0])
    requires end == p + |Render(attrs)| <= |s| && s[p..end] == Render(attrs)
    ensures end == q + |Render(attrs[1..])| && s[q..end] == Render(attrs[1..])
    ensures MatchesFrom(s, p) == [(LowerAscii(attrs[0].key), attrs[0].value)] + MatchesFrom(s, q)
  {
    q := p + 1 + |Text(attrs[0])|;
    RenderParts(s, p, attrs);
    SearchAtSpace(s, p, attrs[0], q);
  }

  /** `whole == [x] + tail` and `tail == front + later` give `whole == ([x] + front) + later`. */
  lemma ConsChain<T>(whole: seq<T>, x: T, tail: seq<T>, front: seq<T>, later: seq<T>)
    requires whole == [x] + tail && tail == front + later
    ensures whole == ([x] + front) + later
  {
    Assoc([x], front, later);
  }

  /** Rendered attributes are visited in order, with nothing in between. */
  lemma {:induction false} MatchesOfRender(s: string, p: nat, end: nat, attrs: seq<Attribute>)
    requires forall k :: 0 <= k < |attrs| ==> Writable(attrs[k])
    requires end == p + |Render(attrs)| <= |s| && s[p..end] == Render(attrs)
    ensures MatchesFrom(s, p) == Lowered(attrs) + MatchesFrom(s, end)
    decreases |attrs|
  {
    if attrs != [] {
      var rest := attrs[1..];
      var q := FirstOfRender(s, p, end, attrs);
      assert forall k :: 0 <= k < |rest| ==> rest[k] == attrs[k + 1];
      MatchesOfRender(s, q, end, rest);
      var pair := (LowerAscii(attrs[0].key), attrs[0].value);
      assert Lowered(attrs) == [pair] + Lowered(rest);
      ConsChain(MatchesFrom(s, p), pair, MatchesFrom(s, q), Lowered(rest), MatchesFrom(s, end));
    } else {
      var m := MatchesFrom(s, p);
      assert Lowered(attrs) == [] && |Render(attrs)| == 0;
      assert [] + m == m;
    }
  }

  lemma {:induction false} LastCommaSkips(s: string, from: nat, c: nat)
    requires from <= c < |s| && s[c] == ',' && NoLineTerminator(s)
    ensures LastCommaFrom(s, from) == LastCommaFrom(s, c)
    decreases c - from
  {
    if from < c {
      if s[from] == ',' {
        IndexFromAtMost(s, from + 1, ',', c);
        LineEndAtLeast(s, from + 1, |s|);
      }
      LastCommaSkips(s, from + 1, c);
    }
  }

  /** On a single line, the name is what follows the last comma, trimmed. */
  lemma NameAfterLastComma(s: string, c: nat)
    requires c < |s| && s[c] == ',' && NoLineTerminator(s)
    requires forall i :: c < i < |s| ==> s[i] != ','
    ensures NameAfterComma(s) == Some(Trim(s[c + 1..]))
  {
    LastCommaSkips(s, 0, c);
    IndexFromNone(s, c + 1, ',');
    LineEndAtLeast(s, c + 1, |s|);
    assert LineEnd(s, c + 1) == |s|;
    assert IsFinalComma(s, c);
    assert s[c + 1..LineEnd(s, c + 1)] == s[c + 1..];
    assert LastCommaFrom(s, c) == Some(s[c + 1..LineEnd(s, c + 1)]);
  }

  /** Text with no `=` from `from` up to a stop character is passed over by the loop. */
  lemma MatchesSkip(s: string, from: nat, to: nat)
    requires from <= to <= |s|
    requires forall i :: from <= i < to ==> s[i] != '='
    requires to == |s| || (s[to] != '=' && !IsKeyChar(s[to]))
    ensures MatchesFrom(s, from) == MatchesFrom(s, to)
  {
    SearchSkips(s, from, to);
  }

  /** A line with no `=` outside the rendered attributes at `b..c`, and a comma at `c`, yields exactly those attributes. */
  lemma MatchesOfLine(s: string, b: nat, c: nat, attrs: seq<Attribute>)
    requires forall k :: 0 <= k < |attrs| ==> Writable(attrs[k])
    requires b + |Render(attrs)| == c < |s| && s[b..c] == Render(attrs) && s[c] == ','
    requires s[b] != '=' && !IsKeyChar(s[b])
    requires forall i :: 0 <= i < b ==> s[i] != '='
    requires forall i :: c < i < |s| ==> s[i] != '='
    ensures MatchesFrom(s, 0) == Lowered(attrs)
  {
    MatchesSkip(s, 0, b);
    MatchesOfRender(s, b, c, attrs);
    MatchesSkip(s, c, |s|);
    assert MatchesFrom(s, |s|) == [];
    assert Lowered(attrs) + [] == Lowered(attrs);
  }

  lemma RenderStartsWithSpace(attrs: seq<Attribute>)
    ensures Render(attrs) == [] <==> attrs == []
    ensures attrs != [] ==> Render(attrs)[0] == ' '
  {
  }

  /** Where the pieces of `prefix + r + "," + name` sit. */
  lemma LineLayout(s: string, prefix: string, r: string, name: string)
    requires s == prefix + r + "," + name
    ensures |s| == |prefix| + |r| + 1 + |name|
    ensures s[|prefix|..|prefix| + |r|] == r && s[|prefix| + |r|] == ','
    ensures s[|prefix| + |r| + 1..] == name
    ensures forall i :: 0 <= i < |prefix| ==> s[i] == prefix[i]
    ensures forall i :: |prefix| + |r| < i < |s| ==> s[i] == name[i - |prefix| - |r| - 1]
    ensures r != [] ==> s[|prefix|] == r[0]
  {
  }

  lemma NoLineTerminatorConcat(x: string, y: string)
    requires NoLineTerminator(x) && NoLineTerminator(y)
    ensures NoLineTerminator(x + y)
  {
    assert forall i :: |x| <= i < |x + y| ==> (x + y)[i] == y[i - |x|];
  }

  /** The line `prefix + Render(attrs) + "," + name` meets what the two scans above need. */
  lemma LineFacts(s: string, prefix: string, attrs: seq<Attribute>, name: string, b: nat, c: nat)
    requires forall k :: 0 <= k < |attrs| ==> Writable(attrs[k])
    requires NoLineTerminator(prefix) && forall i :: 0 <= i < |prefix| ==> prefix[i] != '='
    requires NoLineTerminator(name) && forall i :: 0 <= i < |name| ==> name[i] != '=' && name[i] != ','
    requires s == prefix + Render(attrs) + "," + name && b == |prefix| && c == |prefix| + |Render(attrs)|
    ensures b + |Render(attrs)| == c < |s| && s[b..c] == Render(attrs) && s[c] == ','
    ensures s[b] != '=' && !IsKeyChar(s[b])
    ensures forall i :: 0 <= i < b ==> s[i] != '='
    ensures forall i :: c < i < |s| ==> s[i] != '='
    ensures forall i :: c < i < |s| ==> s[i] != ','
    ensures NoLineTerminator(s)
    ensures s[c + 1..] == name
  {
    var r := Render(attrs);
    LineLayout(s, prefix, r, name);
    RenderStartsWithSpace(attrs);
    MatchesOfRenderNoLineTerminator(attrs);
    NoLineTerminatorConcat(prefix, r);
    NoLineTerminatorConcat(prefix + r, ",");
    NoLineTerminatorConcat(prefix + r + ",", name);
  }

  /**
   * Extraction inverts writing: a line made of a prefix without `=` (such as
   * `#EXTINF:-1`), well-formed attributes, a comma and a name without `=` or
   * `,` gives back the attributes, keys lower-cased, and the trimmed name.
   */
  lemma ExtinfLineRoundTrip(prefix: string, attrs: seq<Attribute>, name: string)
    requires forall k :: 0 <= k < |attrs| ==> Writable(attrs[k])
    requires NoLineTerminator(prefix) && forall i :: 0 <= i < |prefix| ==> prefix[i] != '='
    requires NoLineTerminator(name) && forall i :: 0 <= i < |name| ==> name[i] != '=' && name[i] != ','
    ensures AttributesOf(prefix + Render(attrs) + "," + name) == ToMap(Lowered(attrs))
    ensures NameAfterComma(prefix + Render(attrs) + "," + name) == Some(Trim(name))
  {
    var s := prefix + Render(attrs) + "," + name;
    var b, c := |prefix|, |prefix| + |Render(attrs)|;
    LineFacts(s, prefix, attrs, name, b, c);
    MatchesOfLine(s, b, c, attrs);
    NameAfterLastComma(s, c);
  }

  lemma {:induction false} MatchesOfRenderNoLineTerminator(attrs: seq<Attribute>)
    requires forall k :: 0 <= k < |attrs| ==> Writable(attrs[k])
    ensures NoLineTerminator(Render(attrs))
  {
    if attrs != [] {
      MatchesOfRenderNoLineTerminator(attrs[1..]);
      var a := attrs[0];
      assert forall i :: 0 <= i < |a.key| ==> !IsLineTerminator(a.key[i]);
    }
  }

  // ---------------------------------------------------------------------
  // The source's procedure
  // ---------------------------------------------------------------------

  /** `extractAttributesFromString(line)`: the `exec` loop, then the channel name. */
  method ExtractAttributesFromString(line: string) returns (attributes: map<string, string>)
    ensures attributes == ExtractedAttributes(line)
  {
    attributes := map[];
    var lastIndex := 0;
    ghost var visited: seq<(string, string)> := [];
    while true
      invariant lastIndex <= |line|
      invariant MatchesFrom(line, 0) == visited + MatchesFrom(line, lastIndex)
      invariant attributes == ToMap(visited)
      decreases |line| - lastIndex
    {
      var found := Search(line, lastIndex);
      if found.None? {
        break;
      }
      var m := found.value.1;
      attributes := Assign(attributes, LowerAscii(m.key), m.value);
      ghost var pair := (LowerAscii(m.key), m.value);
      ghost var next := visited + [pair];
      ghost var later := MatchesFrom(line, m.end);
      assert MatchesFrom(line, lastIndex) == [pair] + later;
      Assoc(visited, [pair], later);
      assert next[..|visited|] == visited && next[|visited|] == pair;
      assert ToMap(next) == Assign(ToMap(visited), pair.0, pair.1);
      visited := next;
      lastIndex := m.end;
    }
    assert MatchesFrom(line, lastIndex) == [];
    assert MatchesFrom(line, 0) == visited;
    var nameAfterComma := NameAfterComma(line);
    attributes := attributes[ExtractedNameKey := ExtractedName(attributes, nameAfterComma)];
  }
}
