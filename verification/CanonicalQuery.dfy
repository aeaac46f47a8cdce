/** The canonical query string that requests to the cloud provider are signed over. */
module CanonicalQuery {
  import opened Rows

  type Byte = b: nat | b < 256

  /** A string of the program is a sequence of bytes. */
  type Text = seq<Byte>

  const SPACE: Byte := 0x20
  const PERCENT: Byte := 0x25
  const AMPERSAND: Byte := 0x26
  const PLUS: Byte := 0x2B
  const EQUALS: Byte := 0x3D

  // ---------- encoding ----------

  /** RFC 3986 section 2.3. */
  predicate Unreserved(b: Byte) {
    || 0x41 <= b <= 0x5A || 0x61 <= b <= 0x7A || 0x30 <= b <= 0x39
    || b == 0x2D || b == 0x2E || b == 0x5F || b == 0x7E
  }

  function HexDigit(d: nat): Byte
    requires d < 16
  {
    if d < 10 then 0x30 + d else 0x37 + d
  }

  function Triplet(b: Byte): Text {
    [PERCENT, HexDigit(b / 16), HexDigit(b % 16)]
  }

  function EscapeByte(b: Byte): Text {
    if Unreserved(b) then [b] else if b == SPACE then [PLUS] else Triplet(b)
  }

  /** url.QueryEscape. */
  function QueryEscape(s: Text): Text {
    if s == [] then [] else EscapeByte(s[0]) + QueryEscape(s[1..])
  }

  /** strings.ReplaceAll(s, "+", "%20"). */
  function ReplacePlus(s: Text): Text {
    if s == [] then [] else (if s[0] == PLUS then [PERCENT, 0x32, 0x30] else [s[0]]) + ReplacePlus(s[1..])
  }

  function Encode(s: Text): Text {
    ReplacePlus(QueryEscape(s))
  }

  /** RFC 3986 section 2.1: what is not unreserved becomes a triplet. */
  function PercentEncode(s: Text): Text {
    if s == [] then [] else (if Unreserved(s[0]) then [s[0]] else Triplet(s[0])) + PercentEncode(s[1..])
  }

  lemma {:induction false} ReplaceConcat(a: Text, b: Text)
    ensures ReplacePlus(a + b) == ReplacePlus(a) + ReplacePlus(b)
  {
    if a == [] {
      assert a + b == b;
    } else {
      assert (a + b)[0] == a[0] && (a + b)[1..] == a[1..] + b;
      ReplaceConcat(a[1..], b);
    }
  }

  lemma {:induction false} NothingToReplace(s: Text)
    requires PLUS !in s
    ensures ReplacePlus(s) == s
  {
    if s != [] {
      assert forall b | b in s[1..] :: b in s;
      NothingToReplace(s[1..]);
      assert s == [s[0]] + s[1..];
    }
  }

  lemma ReplaceOne(b: Byte)
    ensures ReplacePlus(EscapeByte(b)) == if Unreserved(b) then [b] else Triplet(b)
  {
    if !Unreserved(b) && b == SPACE {
      assert ReplacePlus([PLUS][1..]) == [];
    } else {
      NothingToReplace(EscapeByte(b));
    }
  }

  /** Escaping and then replacing plus signs is percent-encoding. */
  lemma {:induction false} EncodeIsPercentEncode(s: Text)
    ensures Encode(s) == PercentEncode(s)
  {
    if s != [] {
      ReplaceConcat(EscapeByte(s[0]), QueryEscape(s[1..]));
      ReplaceOne(s[0]);
      EncodeIsPercentEncode(s[1..]);
    }
  }

  // ---------- decoding ----------

  function HexValue(b: Byte): Option<nat> {
    if 0x30 <= b <= 0x39 then Some(b - 0x30)
    else if 0x41 <= b <= 0x46 then Some(b - 0x37)
    else None
  }

  function Decode(t: Text): Option<Text> {
    if t == [] then Some([])
    else if t[0] == PERCENT then
      if |t| < 3 || HexValue(t[1]).None? || HexValue(t[2]).None? then None
      else
        var b: nat := 16 * HexValue(t[1]).value + HexValue(t[2]).value;
        match Decode(t[3..])
        case None => None
        case Some(rest) => if b < 256 then Some([b] + rest) else None
    else
      match Decode(t[1..]) case None => None case Some(rest) => Some([t[0]] + rest)
  }

  lemma HexRoundTrip(d: nat)
    requires d < 16
    ensures HexValue(HexDigit(d)) == Some(d)
  {
  }

  lemma DecodeTriplet(b: Byte, rest: Text)
    ensures Decode(Triplet(b) + rest) == match Decode(rest) case None => None case Some(s) => Some([b] + s)
  {
    var t := Triplet(b) + rest;
    HexRoundTrip(b / 16);
    HexRoundTrip(b % 16);
    assert t[0] == PERCENT && t[1] == HexDigit(b / 16) && t[2] == HexDigit(b % 16) && t[3..] == rest;
    assert 16 * (b / 16) + b % 16 == b;
  }

  lemma DecodePlain(b: Byte, rest: Text)
    requires Unreserved(b)
    ensures Decode([b] + rest) == match Decode(rest) case None => None case Some(s) => Some([b] + s)
  {
    assert ([b] + rest)[1..] == rest;
  }

  lemma {:induction false} DecodePercentEncode(s: Text)
    ensures Decode(PercentEncode(s)) == Some(s)
  {
    if s != [] {
      DecodePercentEncode(s[1..]);
      if Unreserved(s[0]) {
        DecodePlain(s[0], PercentEncode(s[1..]));
      } else {
        DecodeTriplet(s[0], PercentEncode(s[1..]));
      }
      assert [s[0]] + s[1..] == s;
    }
  }

  /** Nothing is lost in the encoding. */
  lemma DecodeEncode(s: Text)
    ensures Decode(Encode(s)) == Some(s)
  {
    EncodeIsPercentEncode(s);
    DecodePercentEncode(s);
  }

  lemma EncodeInjective(a: Text, b: Text)
    requires Encode(a) == Encode(b)
    ensures a == b
  {
    DecodeEncode(a);
    DecodeEncode(b);
  }

  /** Encoded text holds unreserved bytes and percent signs only; in particular no separator. */
  lemma {:induction false} EncodeAlphabet(s: Text)
    ensures forall b | b in Encode(s) :: Unreserved(b) || b == PERCENT
    ensures AMPERSAND !in Encode(s) && EQUALS !in Encode(s)
  {
    EncodeIsPercentEncode(s);
    if s != [] {
      EncodeAlphabet(s[1..]);
      EncodeIsPercentEncode(s[1..]);
    }
  }

  // ---------- byte order ----------

  predicate Leq(a: Text, b: Text) {
    a == [] || (b != [] && (a[0] < b[0] || (a[0] == b[0] && Leq(a[1..], b[1..]))))
  }

  lemma {:induction false} LeqTotal(a: Text, b: Text)
    ensures Leq(a, b) || Leq(b, a)
    ensures Leq(a, b) && Leq(b, a) ==> a == b
  {
    if a != [] && b != [] && a[0] == b[0] {
      LeqTotal(a[1..], b[1..]);
      assert a == [a[0]] + a[1..] && b == [b[0]] + b[1..];
    }
  }

  lemma {:induction false} LeqTransitive(a: Text, b: Text, c: Text)
    requires Leq(a, b) && Leq(b, c)
    ensures Leq(a, c)
  {
    if a != [] && a[0] == b[0] && b[0] == c[0] {
      LeqTransitive(a[1..], b[1..], c[1..]);
    }
  }

  ghost predicate Sorted(s: seq<Text>) {
    forall i, j | 0 <= i < j < |s| :: Leq(s[i], s[j])
  }

  /** sort.Strings, as a function: insertion into a sorted list. */
  function InsertText(s: seq<Text>, x: Text): seq<Text> {
    if s == [] || Leq(x, s[0]) then [x] + s else [s[0]] + InsertText(s[1..], x)
  }

  function SortTexts(s: seq<Text>): seq<Text> {
    if s == [] then [] else InsertText(SortTexts(s[1..]), s[0])
  }

  lemma {:induction false} InsertSorts(s: seq<Text>, x: Text)
    requires Sorted(s)
    ensures Sorted(InsertText(s, x)) && multiset(InsertText(s, x)) == multiset(s) + multiset{x}
  {
    if s == [] {
    } else if Leq(x, s[0]) {
      forall k | 0 <= k < |s|
        ensures Leq(x, s[k])
      {
        if k > 0 {
          LeqTransitive(x, s[0], s[k]);
        }
      }
    } else {
      LeqTotal(x, s[0]);
      InsertSorts(s[1..], x);
      assert s == [s[0]] + s[1..];
      var rest := InsertText(s[1..], x);
      forall k | 0 <= k < |rest|
        ensures Leq(s[0], rest[k])
      {
        assert rest[k] in multiset(rest);
        assert rest[k] == x || rest[k] in s[1..];
      }
    }
  }

  lemma {:induction false} SortSorts(s: seq<Text>)
    ensures Sorted(SortTexts(s)) && multiset(SortTexts(s)) == multiset(s)
  {
    if s != [] {
      SortSorts(s[1..]);
      InsertSorts(SortTexts(s[1..]), s[0]);
      assert s == [s[0]] + s[1..];
    }
  }

  // ---------- pairs and their rendering ----------

  datatype Pair = Pair(key: Text, value: Text)

  function Part(p: Pair): Text {
    Encode(p.key) + [EQUALS] + Encode(p.value)
  }

  /** The parts joined with ampersands. */
  function Render(pairs: seq<Pair>): Text {
    if pairs == [] then []
    else if |pairs| == 1 then Part(pairs[0])
    else Part(pairs[0]) + [AMPERSAND] + Render(pairs[1..])
  }

  lemma SplitAt(x: Byte, a: Text, b: Text, a': Text, b': Text)
    requires x !in a && x !in a' && a + [x] + b == a' + [x] + b'
    ensures a == a' && b == b'
  {
    var s := a + [x] + b;
    assert s[|a|] == x && s[|a'|] == x;
    assert forall k | 0 <= k < |a| :: s[k] == a[k] && a[k] in a;
    assert forall k | 0 <= k < |a'| :: s[k] == a'[k] && a'[k] in a';
    assert |a| == |a'|;
    assert a == s[..|a|] && a' == s[..|a'|] && b == s[|a| + 1..] && b' == s[|a'| + 1..];
  }

  lemma PartInjective(p: Pair, p': Pair)
    requires Part(p) == Part(p')
    ensures p == p'
  {
    EncodeAlphabet(p.key);
    EncodeAlphabet(p'.key);
    SplitAt(EQUALS, Encode(p.key), Encode(p.value), Encode(p'.key), Encode(p'.value));
    EncodeInjective(p.key, p'.key);
    EncodeInjective(p.value, p'.value);
  }

  lemma PartHasNoAmpersand(p: Pair)
    ensures AMPERSAND !in Part(p) && Part(p) != []
  {
    EncodeAlphabet(p.key);
    EncodeAlphabet(p.value);
  }

  /** Every part ended by an ampersand, so that the list falls apart one part at a time. */
  function Terminated(pairs: seq<Pair>): Text {
    if pairs == [] then [] else Part(pairs[0]) + [AMPERSAND] + Terminated(pairs[1..])
  }

  lemma {:induction false} RenderTerminated(pairs: seq<Pair>)
    requires pairs != []
    ensures Render(pairs) + [AMPERSAND] == Terminated(pairs) && Render(pairs) != []
  {
    PartHasNoAmpersand(pairs[0]);
    if |pairs| > 1 {
      RenderTerminated(pairs[1..]);
      assert Render(pairs) + [AMPERSAND] == Part(pairs[0]) + [AMPERSAND] + (Render(pairs[1..]) + [AMPERSAND]);
    } else {
      assert Terminated(pairs[1..]) == [];
    }
  }

  lemma {:induction false} TerminatedInjective(a: seq<Pair>, b: seq<Pair>)
    requires Terminated(a) == Terminated(b)
    ensures a == b
  {
    if a != [] && b != [] {
      PartHasNoAmpersand(a[0]);
      PartHasNoAmpersand(b[0]);
      SplitAt(AMPERSAND, Part(a[0]), Terminated(a[1..]), Part(b[0]), Terminated(b[1..]));
      PartInjective(a[0], b[0]);
      TerminatedInjective(a[1..], b[1..]);
      assert a == [a[0]] + a[1..] && b == [b[0]] + b[1..];
    }
  }

  /** The rendered text decodes to one list of pairs only. */
  lemma RenderInjective(a: seq<Pair>, b: seq<Pair>)
    requires Render(a) == Render(b)
    ensures a == b
  {
    if a != [] {
      RenderTerminated(a);
    }
    if b != [] {
      RenderTerminated(b);
    }
    if a != [] && b != [] {
      TerminatedInjective(a, b);
    }
  }

  // ---------- the canonical form ----------

  predicate PairLeq(p: Pair, p': Pair) {
    Leq(p.key, p'.key) && (p.key == p'.key ==> Leq(p.value, p'.value))
  }

  ghost predicate PairsSorted(pairs: seq<Pair>) {
    forall i, j | 0 <= i < j < |pairs| :: PairLeq(pairs[i], pairs[j])
  }

  /** "Signature" */
  const SIGNATURE: Text := [0x53, 0x69, 0x67, 0x6E, 0x61, 0x74, 0x75, 0x72, 0x65]

  /** How often a pair occurs in the form values, the signature itself left out. */
  function Count(values: map<Text, seq<Text>>, p: Pair): nat {
    if p.key in values && p.key != SIGNATURE then multiset(values[p.key])[p.value] else 0
  }

  ghost predicate Lists(values: map<Text, seq<Text>>, pairs: seq<Pair>) {
    forall p: Pair :: multiset(pairs)[p] == Count(values, p)
  }

  /** The canonical text: all pairs, in order, rendered. */
  ghost predicate IsCanonical(values: map<Text, seq<Text>>, text: Text) {
    exists pairs :: PairsSorted(pairs) && Lists(values, pairs) && text == Render(pairs)
  }

  lemma {:induction false} SortedUnique(a: seq<Pair>, b: seq<Pair>)
    requires PairsSorted(a) && PairsSorted(b) && multiset(a) == multiset(b)
    ensures a == b
  {
    assert |a| == |multiset(a)| == |multiset(b)| == |b|;
    if a != [] {
      SameFirst(a, b);
      assert a == [a[0]] + a[1..] && b == [b[0]] + b[1..];
      assert multiset(a[1..]) == multiset(a) - multiset{a[0]};
      assert multiset(b[1..]) == multiset(b) - multiset{b[0]};
      SortedUnique(a[1..], b[1..]);
    }
  }

  lemma SameFirst(a: seq<Pair>, b: seq<Pair>)
    requires PairsSorted(a) && PairsSorted(b) && multiset(a) == multiset(b) && a != [] && b != []
    ensures a[0] == b[0]
  {
    assert b[0] in multiset(b) && a[0] in multiset(a);
    FirstIsLeast(a, b[0]);
    FirstIsLeast(b, a[0]);
    LeqTotal(a[0].key, b[0].key);
    LeqTotal(a[0].value, b[0].value);
  }

  lemma FirstIsLeast(a: seq<Pair>, p: Pair)
    requires PairsSorted(a) && p in multiset(a)
    ensures PairLeq(a[0], p)
  {
    var k :| 0 <= k < |a| && a[k] == p;
    LeqTotal(p.key, p.key);
    LeqTotal(p.value, p.value);
  }

  /** Two requests sign the same text exactly when they carry the same pairs. */
  lemma CanonicalIff(values: map<Text, seq<Text>>, text: Text, values': map<Text, seq<Text>>, text': Text)
    requires IsCanonical(values, text) && IsCanonical(values', text')
    ensures text == text' <==> forall p: Pair :: Count(values, p) == Count(values', p)
  {
    var a :| PairsSorted(a) && Lists(values, a) && text == Render(a);
    var b :| PairsSorted(b) && Lists(values', b) && text' == Render(b);
    if text == text' {
      RenderInjective(a, b);
      forall p: Pair
        ensures Count(values, p) == Count(values', p)
      {
        assert multiset(a)[p] == Count(values, p) && multiset(b)[p] == Count(values', p);
      }
    }
    if forall p: Pair :: Count(values, p) == Count(values', p) {
      forall p: Pair
        ensures multiset(a)[p] == multiset(b)[p]
      {
        assert multiset(a)[p] == Count(values, p) && multiset(b)[p] == Count(values', p);
      }
      assert multiset(a) == multiset(b);
      SortedUnique(a, b);
    }
  }

  // ---------- sign ----------

  /** What the two loops of sign append: the keys in order, each with its sorted values. */
  function Block(key: Text, items: seq<Text>): seq<Pair> {
    seq(|items|, k requires 0 <= k < |items| => Pair(key, items[k]))
  }

  function Blocks(values: map<Text, seq<Text>>, keys: seq<Text>): seq<Pair>
    requires forall k | k in keys :: k in values
  {
    if keys == [] then []
    else Blocks(values, keys[..|keys| - 1]) + Block(keys[|keys| - 1], SortTexts(values[keys[|keys| - 1]]))
  }

  lemma {:induction false} BlockCount(key: Text, items: seq<Text>, p: Pair)
    ensures multiset(Block(key, items))[p] == if p.key == key then multiset(items)[p.value] else 0
  {
    if items != [] {
      var rest, last := items[..|items| - 1], items[|items| - 1];
      BlockCount(key, rest, p);
      assert items == rest + [last];
      assert Block(key, items) == Block(key, rest) + [Pair(key, last)];
    } else {
      assert Block(key, items) == [];
    }
  }

  lemma {:induction false} BlocksCount(values: map<Text, seq<Text>>, keys: seq<Text>, p: Pair)
    requires forall k | k in keys :: k in values
    requires forall i, j | 0 <= i < j < |keys| :: keys[i] != keys[j]
    ensures multiset(Blocks(values, keys))[p] == if p.key in keys then multiset(values[p.key])[p.value] else 0
  {
    if keys != [] {
      var rest, last := keys[..|keys| - 1], keys[|keys| - 1];
      assert keys == rest + [last];
      BlocksCount(values, rest, p);
      SortSorts(values[last]);
      BlockCount(last, SortTexts(values[last]), p);
    }
  }

  lemma {:induction false} BlocksKeys(values: map<Text, seq<Text>>, keys: seq<Text>)
    requires forall k | k in keys :: k in values
    ensures forall p | p in Blocks(values, keys) :: p.key in keys
  {
    if keys != [] {
      BlocksKeys(values, keys[..|keys| - 1]);
    }
  }

  lemma {:induction false} BlocksSorted(values: map<Text, seq<Text>>, keys: seq<Text>)
    requires Sorted(keys) && forall k | k in keys :: k in values
    requires forall i, j | 0 <= i < j < |keys| :: keys[i] != keys[j]
    ensures PairsSorted(Blocks(values, keys))
  {
    if keys != [] {
      var rest, last := keys[..|keys| - 1], keys[|keys| - 1];
      BlocksSorted(values, rest);
      BlocksKeys(values, rest);
      SortSorts(values[last]);
      LeqTotal(last, last);
      var before, block := Blocks(values, rest), Block(last, SortTexts(values[last]));
      forall i, j | 0 <= i < |before| && 0 <= j < |block|
        ensures PairLeq(before[i], block[j])
      {
        assert before[i] in before;
      }
      assert PairsSorted(block);
    }
  }

  function Parts(pairs: seq<Pair>): seq<Text> {
    seq(|pairs|, k requires 0 <= k < |pairs| => Part(pairs[k]))
  }

  /** strings.Join(parts, "&"). */
  function JoinParts(parts: seq<Text>): Text {
    if parts == [] then []
    else if |parts| == 1 then parts[0]
    else parts[0] + [AMPERSAND] + JoinParts(parts[1..])
  }

  lemma {:induction false} JoinIsRender(pairs: seq<Pair>)
    ensures JoinParts(Parts(pairs)) == Render(pairs)
  {
    if |pairs| > 1 {
      JoinIsRender(pairs[1..]);
      assert Parts(pairs)[1..] == Parts(pairs[1..]);
    }
  }

  lemma KeysListPairs(values: map<Text, seq<Text>>, keys: seq<Text>)
    requires Sorted(keys) && (forall i, j | 0 <= i < j < |keys| :: keys[i] != keys[j])
    requires forall k :: k in keys <==> k in values && k != SIGNATURE
    ensures PairsSorted(Blocks(values, keys)) && Lists(values, Blocks(values, keys))
  {
    BlocksSorted(values, keys);
    forall p: Pair
      ensures multiset(Blocks(values, keys))[p] == Count(values, p)
    {
      BlocksCount(values, keys, p);
    }
  }

  lemma BlocksAreCanonical(values: map<Text, seq<Text>>, keys: seq<Text>)
    requires Sorted(keys) && (forall i, j | 0 <= i < j < |keys| :: keys[i] != keys[j])
    requires forall k :: k in keys <==> k in values && k != SIGNATURE
    ensures IsCanonical(values, JoinParts(Parts(Blocks(values, keys))))
  {
    KeysListPairs(values, keys);
    JoinIsRender(Blocks(values, keys));
  }

  lemma SortKeepsDistinct(keys: seq<Text>)
    requires forall i, j | 0 <= i < j < |keys| :: keys[i] != keys[j]
    ensures var s := SortTexts(keys);
            && Sorted(s) && (forall k :: k in s <==> k in keys)
            && forall i, j | 0 <= i < j < |s| :: s[i] != s[j]
  {
    var s := SortTexts(keys);
    SortSorts(keys);
    forall k
      ensures k in s <==> k in keys
    {
      assert k in multiset(s) <==> k in multiset(keys);
    }
    forall i, j | 0 <= i < j < |s|
      ensures s[i] != s[j]
    {
      if s[i] == s[j] {
        TwiceInMultiset(s, i, j);
        OnceInMultiset(keys, s[i]);
      }
    }
  }

  lemma TwiceInMultiset(s: seq<Text>, i: nat, j: nat)
    requires i < j < |s| && s[i] == s[j]
    ensures multiset(s)[s[i]] >= 2
  {
    assert s == s[..i + 1] + s[i + 1..];
    assert s[..i + 1][i] == s[i] && s[i + 1..][j - i - 1] == s[j];
    assert s[i] in multiset(s[..i + 1]) && s[i] in multiset(s[i + 1..]);
  }

  lemma {:induction false} OnceInMultiset(keys: seq<Text>, k: Text)
    requires forall i, j | 0 <= i < j < |keys| :: keys[i] != keys[j]
    ensures multiset(keys)[k] <= 1
  {
    if keys != [] {
      OnceInMultiset(keys[1..], k);
      assert keys == [keys[0]] + keys[1..];
      if k == keys[0] {
        assert k !in keys[1..];
        assert k !in multiset(keys[1..]);
      }
    }
  }

  /** The first loop of sign: the keys in whatever order the map yields them. */
  method CollectKeys(values: map<Text, seq<Text>>) returns (keys: seq<Text>)
    ensures forall k :: k in keys <==> k in values && k != SIGNATURE
    ensures forall i, j | 0 <= i < j < |keys| :: keys[i] != keys[j]
  {
    keys := [];
    var left := values.Keys;
    while left != {}
      invariant left <= values.Keys
      invariant forall k :: k in keys <==> k in values && k !in left && k != SIGNATURE
      invariant forall i, j | 0 <= i < j < |keys| :: keys[i] != keys[j]
      decreases left
    {
      var key :| key in left;
      left := left - {key};
      if key != SIGNATURE {
        keys := keys + [key];
      }
    }
  }

  /** The inner loop of sign: the values of one key, each rendered as a part. */
  method AppendParts(parts: seq<Text>, key: Text, items: seq<Text>) returns (parts': seq<Text>)
    ensures parts' == parts + Parts(Block(key, items))
  {
    parts' := parts;
    for m := 0 to |items|
      invariant parts' == parts + Parts(Block(key, items[..m]))
    {
      assert Block(key, items[..m + 1]) == Block(key, items[..m]) + [Pair(key, items[m])];
      parts' := parts' + [Encode(key) + [EQUALS] + Encode(items[m])];
    }
    assert items[..|items|] == items;
  }

  lemma OneMoreKey(values: map<Text, seq<Text>>, keys: seq<Text>, n: nat)
    requires n < |keys| && forall k | k in keys :: k in values
    ensures Parts(Blocks(values, keys[..n + 1])) == Parts(Blocks(values, keys[..n])) + Parts(Block(keys[n], SortTexts(values[keys[n]])))
  {
    assert keys[..n + 1][..n] == keys[..n];
  }

  method SortedKeys(values: map<Text, seq<Text>>) returns (keys: seq<Text>)
    ensures Sorted(keys) && forall i, j | 0 <= i < j < |keys| :: keys[i] != keys[j]
    ensures forall k :: k in keys <==> k in values && k != SIGNATURE
  {
    var collected := CollectKeys(values);
    SortKeepsDistinct(collected);
    keys := SortTexts(collected);
  }

  /** sign up to the digest: the map is walked in an arbitrary order, and the text does not depend
      on it. The digest is taken over POST&%2F& and this text, encoded once more. */
  method CanonicalText(values: map<Text, seq<Text>>) returns (text: Text)
    ensures IsCanonical(values, text)
  {
    var keys := SortedKeys(values);
    var parts: seq<Text> := [];
    for n := 0 to |keys|
      invariant parts == Parts(Blocks(values, keys[..n]))
    {
      OneMoreKey(values, keys, n);
      parts := AppendParts(parts, keys[n], SortTexts(values[keys[n]]));
    }
    assert keys[..|keys|] == keys;
    BlocksAreCanonical(values, keys);
    text := JoinParts(parts);
  }

  /** The signed message itself. */
  function Message(text: Text): Text {
    [0x50, 0x4F, 0x53, 0x54, AMPERSAND, PERCENT, 0x32, 0x46, AMPERSAND] + Encode(text)
  }

  /** So the bytes under the digest are the same exactly for the same pairs. */
  lemma MessageIff(values: map<Text, seq<Text>>, text: Text, values': map<Text, seq<Text>>, text': Text)
    requires IsCanonical(values, text) && IsCanonical(values', text')
    ensures Message(text) == Message(text') <==> forall p: Pair :: Count(values, p) == Count(values', p)
  {
    CanonicalIff(values, text, values', text');
    if Message(text) == Message(text') {
      assert Message(text)[9..] == Encode(text) && Message(text')[9..] == Encode(text');
      EncodeInjective(text, text');
    }
  }

  // ---------- the bytes ----------

  predicate Spells(t: Text, s: string) {
    |t| == |s| && forall k | 0 <= k < |s| :: t[k] == s[k] as int
  }

  /** What is signed: the method, the path, and the canonical text encoded once more. */
  lemma MessageIs(text: Text)
    ensures Spells(Message(text)[..9], "POST&%2F&") && Message(text)[9..] == Encode(text)
  {
  }

  /** The bytes of the format: the separators of a part and of the text, the key left out, and the digits
      of a triplet. */
  lemma BytesAre()
    ensures Spells([SPACE, PERCENT, AMPERSAND, PLUS, EQUALS], " %&+=") && Spells(SIGNATURE, "Signature")
    ensures forall d | 0 <= d < 16 :: HexDigit(d) == "0123456789ABCDEF"[d] as int
  {
  }

  /** A part reads back: what stands before its first equals sign decodes to the key, and what stands
      behind it to the value. */
  lemma PartDecodes(p: Pair) returns (i: nat)
    ensures i < |Part(p)| && Part(p)[i] == EQUALS && EQUALS !in Part(p)[..i]
    ensures Decode(Part(p)[..i]) == Some(p.key) && Decode(Part(p)[i + 1..]) == Some(p.value)
  {
    i := |Encode(p.key)|;
    EncodeAlphabet(p.key);
    DecodeEncode(p.key);
    DecodeEncode(p.value);
    assert Part(p)[..i] == Encode(p.key) && Part(p)[i + 1..] == Encode(p.value);
  }

  /** Letters, digits and four marks are sent as they are, and nothing else is. */
  lemma UnreservedIff(b: Byte)
    ensures var c := b as char;
            Unreserved(b) <==> 'A' <= c <= 'Z' || 'a' <= c <= 'z' || '0' <= c <= '9' || c in {'-', '.', '_', '~'}
  {
  }

  /** The order of the keys and values: a text comes before its extensions, and otherwise the first byte
      that differs decides. */
  lemma {:induction false} LeqIff(a: Text, b: Text)
    ensures Leq(a, b) <==> a <= b || exists k :: 0 <= k < |a| && k < |b| && a[..k] == b[..k] && a[k] < b[k]
  {
    if a != [] && b != [] {
      LeqIff(a[1..], b[1..]);
      if a[0] == b[0] {
        if k :| 0 <= k < |a| && k < |b| && a[..k] == b[..k] && a[k] < b[k] {
          assert a[1..][..k - 1] == a[..k][1..] && b[1..][..k - 1] == b[..k][1..];
          assert a[1..][k - 1] < b[1..][k - 1];
        }
        if k :| 0 <= k < |a| - 1 && k < |b| - 1 && a[1..][..k] == b[1..][..k] && a[1..][k] < b[1..][k] {
          assert a[..k + 1] == [a[0]] + a[1..][..k] && b[..k + 1] == [b[0]] + b[1..][..k];
          assert a[k + 1] < b[k + 1];
        }
        assert a == [a[0]] + a[1..] && b == [b[0]] + b[1..];
        if a[1..] <= b[1..] {
          assert b[..|a|] == [b[0]] + b[1..][..|a| - 1] == a;
        }
        if a <= b {
          assert b[1..][..|a| - 1] == b[..|a|][1..] == a[1..];
        }
      } else {
        assert a[..0] == b[..0];
        if k :| 0 <= k < |a| && k < |b| && a[..k] == b[..k] && a[k] < b[k] {
          FirstDecides(a, b, k);
        }
      }
    }
  }

  lemma FirstDecides(a: Text, b: Text, k: nat)
    requires k < |a| && k < |b| && a[..k] == b[..k] && a[k] < b[k] && a[0] != b[0]
    ensures a[0] < b[0]
  {
    if k > 0 {
      SameFirstByte(a, b, k);
    }
  }

  lemma SameFirstByte(a: Text, b: Text, k: nat)
    requires 0 < k <= |a| && k <= |b| && a[..k] == b[..k]
    ensures a[0] == b[0]
  {
    assert a[0] == a[..k][0] == b[..k][0] == b[0];
  }
}
