/** Domain names as strings and as label lists. */
module Names {

  // ---------- the string functions of the standard library, on ASCII text ----------

  function LowerChar(c: char): char {
    if 'A' <= c <= 'Z' then (c as int + 32) as char else c
  }

  function ToLower(s: string): (r: string)
    ensures |r| == |s| && forall i | 0 <= i < |s| :: r[i] == LowerChar(s[i])
  {
    seq(|s|, i requires 0 <= i < |s| => LowerChar(s[i]))
  }

  predicate IsSpace(c: char) {
    c == ' ' || 9 <= c as int <= 13
  }

  function TrimLeft(s: string): string {
    if s != "" && IsSpace(s[0]) then TrimLeft(s[1..]) else s
  }

  function TrimRight(s: string): string {
    if s != "" && IsSpace(s[|s| - 1]) then TrimRight(s[..|s| - 1]) else s
  }

  function TrimSpace(s: string): string {
    TrimRight(TrimLeft(s))
  }

  predicate HasPrefix(s: string, prefix: string) {
    |prefix| <= |s| && s[..|prefix|] == prefix
  }

  predicate HasSuffix(s: string, suffix: string) {
    |suffix| <= |s| && s[|s| - |suffix|..] == suffix
  }

  function TrimPrefix(s: string, prefix: string): string {
    if HasPrefix(s, prefix) then s[|prefix|..] else s
  }

  function TrimSuffix(s: string, suffix: string): string {
    if HasSuffix(s, suffix) then s[..|s| - |suffix|] else s
  }

  /** How every check normalises a name: trimmed, lower case, without one trailing dot. */
  function Normal(s: string): string {
    TrimSuffix(ToLower(TrimSpace(s)), ".")
  }

  // ---------- labels ----------

  /** strings.Split(s, "."). */
  function Split(s: string): (labels: seq<string>)
    ensures |labels| > 0
  {
    if s == "" then [""]
    else if s[0] == '.' then [""] + Split(s[1..])
    else
      var rest := Split(s[1..]);
      [[s[0]] + rest[0]] + rest[1..]
  }

  /** strings.Join(labels, "."). */
  function Join(labels: seq<string>): string {
    if labels == [] then ""
    else if |labels| == 1 then labels[0]
    else labels[0] + "." + Join(labels[1..])
  }

  lemma {:induction false} JoinSplit(s: string)
    ensures Join(Split(s)) == s
  {
    if s != "" {
      JoinSplit(s[1..]);
      var rest := Split(s[1..]);
      if s[0] == '.' {
        assert Split(s)[1..] == rest;
        assert Join(Split(s)) == "" + "." + s[1..];
      } else {
        assert Split(s)[1..] == rest[1..];
        assert Join(Split(s)) == [s[0]] + Join(rest);
      }
    }
  }

  lemma Regroup(head: string, rest: seq<string>, tail: seq<string>)
    requires rest != []
    ensures [head] + (rest + tail)[1..] == ([head] + rest[1..]) + tail
    ensures (rest + tail)[0] == rest[0]
  {
  }

  /** Splitting turns a dot between two names into concatenation of their label lists. */
  lemma {:induction false} SplitConcat(a: string, b: string)
    ensures Split(a + "." + b) == Split(a) + Split(b)
  {
    var s := a + "." + b;
    if a == "" {
      assert s[1..] == b;
    } else {
      var rest, tail := Split(a[1..]), Split(b);
      assert s[0] == a[0] && s[1..] == a[1..] + "." + b;
      SplitConcat(a[1..], b);
      if a[0] == '.' {
        assert [""] + (rest + tail) == ([""] + rest) + tail;
      } else {
        Regroup([a[0]] + rest[0], rest, tail);
      }
    }
  }

  lemma {:induction false} JoinConcat(a: seq<string>, b: seq<string>)
    requires a != [] && b != []
    ensures Join(a + b) == Join(a) + "." + Join(b)
  {
    assert (a + b)[0] == a[0] && (a + b)[1..] == a[1..] + b;
    if |a| == 1 {
      assert a[1..] + b == b;
    } else {
      JoinConcat(a[1..], b);
    }
  }

  lemma {:induction false} NoDotsNoSplit(s: string)
    requires '.' !in s
    ensures Split(s) == [s]
  {
    if s != "" {
      assert s[0] in s && forall c | c in s[1..] :: c in s;
      NoDotsNoSplit(s[1..]);
      assert [s[0]] + s[1..] == s;
    }
  }

  lemma {:induction false} LabelsHaveNoDots(s: string, k: nat)
    requires k < |Split(s)|
    ensures '.' !in Split(s)[k]
  {
    if s != "" {
      if s[0] == '.' {
        if k > 0 {
          LabelsHaveNoDots(s[1..], k - 1);
        }
      } else {
        LabelsHaveNoDots(s[1..], k);
      }
    }
  }

  /** Splitting loses nothing. */
  lemma SplitInjective(a: string, b: string)
    requires Split(a) == Split(b)
    ensures a == b
  {
    JoinSplit(a);
    JoinSplit(b);
  }

  // ---------- wildcards ----------

  predicate IsWildcard(name: string) {
    HasPrefix(name, "*.")
  }

  /** RFC 6125 section 6.4.3: a wildcard stands for exactly one left-most label. */
  predicate Covers(wildcard: string, name: string) {
    var w, n := Split(wildcard), Split(name);
    w[0] == "*" && |w| > 1 && |n| == |w| && n[1..] == w[1..]
  }

  lemma WildcardLabels(name: string)
    ensures IsWildcard(name) <==> Split(name)[0] == "*" && |Split(name)| > 1
    ensures IsWildcard(name) ==> Split(name) == ["*"] + Split(name[2..])
  {
    if IsWildcard(name) {
      assert name == "*" + "." + name[2..];
      SplitConcat("*", name[2..]);
      NoDotsNoSplit("*");
    }
    if Split(name)[0] == "*" && |Split(name)| > 1 {
      JoinSplit(name);
      assert name[..2] == "*.";
    }
  }

  /** A covering wildcard is determined by the name: its parent behind a star. */
  lemma CoversIff(wildcard: string, name: string)
    ensures Covers(wildcard, name) <==> |Split(name)| > 1 && wildcard == "*." + Join(Split(name)[1..])
  {
    var n := Split(name);
    if |n| > 1 {
      var parent := Join(n[1..]);
      JoinedParent(name);
      SplitConcat("*", parent);
      NoDotsNoSplit("*");
      assert Split("*." + parent) == ["*"] + n[1..] by {
        assert "*" + "." + parent == "*." + parent;
      }
      if Covers(wildcard, name) {
        assert Split(wildcard) == ["*"] + n[1..];
        SplitInjective(wildcard, "*." + parent);
      }
    }
  }

  lemma JoinedParent(name: string)
    requires |Split(name)| > 1
    ensures Split(Join(Split(name)[1..])) == Split(name)[1..]
  {
    var n := Split(name);
    JoinSplit(name);
    var head, parent := n[0], Join(n[1..]);
    assert name == head + "." + parent;
    LabelsHaveNoDots(name, 0);
    NoDotsNoSplit(head);
    SplitConcat(head, parent);
    assert Split(name) == [head] + Split(parent);
  }

  /** A wildcard never covers its own apex. */
  lemma ApexIsNotCovered(apex: string)
    ensures !Covers("*." + apex, apex)
  {
    WildcardLabels("*." + apex);
    assert ("*." + apex)[2..] == apex;
  }

  // ---------- zones ----------

  predicate IsLabelSuffix(zone: seq<string>, name: seq<string>) {
    |zone| <= |name| && name[|name| - |zone|..] == zone
  }

  /** Ending in the zone at a dot boundary is ending in the zone's labels. */
  lemma SuffixIsLabelSuffix(name: string, zone: string)
    ensures name == zone || HasSuffix(name, "." + zone) <==> IsLabelSuffix(Split(zone), Split(name))
  {
    if HasSuffix(name, "." + zone) {
      BoundaryIsSuffix(name[..|name| - |zone| - 1], name, zone);
    }
    if IsLabelSuffix(Split(zone), Split(name)) {
      SuffixIsBoundary(name, zone);
    }
  }

  lemma BoundaryIsSuffix(front: string, name: string, zone: string)
    requires HasSuffix(name, "." + zone) && front == name[..|name| - |zone| - 1]
    ensures IsLabelSuffix(Split(zone), Split(name))
  {
    assert name == front + ("." + zone);
    assert front + ("." + zone) == front + "." + zone;
    SplitConcat(front, zone);
  }

  lemma SuffixIsBoundary(name: string, zone: string)
    requires IsLabelSuffix(Split(zone), Split(name))
    ensures name == zone || HasSuffix(name, "." + zone)
  {
    JoinSplit(name);
    JoinSplit(zone);
    var front := Split(name)[..|Split(name)| - |Split(zone)|];
    assert Split(name) == front + Split(zone);
    if front != [] {
      JoinConcat(front, Split(zone));
      DotSuffix(Join(front), zone);
    }
  }

  lemma DotSuffix(front: string, zone: string)
    ensures HasSuffix(front + "." + zone, "." + zone)
  {
    assert front + "." + zone == front + ("." + zone);
  }

  // ---------- what normalising forgets ----------

  ghost predicate Blank(s: string) {
    forall c | c in s :: c == ' ' || '\t' <= c <= '\r'
  }

  lemma {:induction false} TrimLeftBlank(blank: string, s: string)
    requires Blank(blank)
    ensures TrimLeft(blank + s) == TrimLeft(s)
  {
    if blank == "" {
      assert blank + s == s;
    } else {
      assert blank[0] in blank && (forall c | c in blank[1..] :: c in blank);
      assert (blank + s)[1..] == blank[1..] + s;
      TrimLeftBlank(blank[1..], s);
    }
  }

  lemma {:induction false} TrimRightBlank(s: string, blank: string)
    requires Blank(blank)
    ensures TrimRight(s + blank) == TrimRight(s)
  {
    if blank == "" {
      assert s + blank == s;
    } else {
      var n := |blank| - 1;
      assert blank[n] in blank && forall c | c in blank[..n] :: c in blank;
      assert (s + blank)[..|s + blank| - 1] == s + blank[..n] && (s + blank)[|s| + n] == blank[n];
      TrimRightBlank(s, blank[..n]);
    }
  }

  lemma {:induction false} TrimLeftConcat(s: string, t: string)
    requires !Blank(s)
    ensures TrimLeft(s + t) == TrimLeft(s) + t && !Blank(TrimLeft(s))
  {
    if IsSpace(s[0]) {
      assert s == [s[0]] + s[1..] && (s + t)[1..] == s[1..] + t;
      TrimLeftConcat(s[1..], t);
    }
  }

  lemma TrimBlank(left: string, s: string, right: string)
    requires Blank(left) && Blank(right)
    ensures TrimSpace(left + s + right) == TrimSpace(s)
  {
    assert left + s + right == left + (s + right);
    TrimLeftBlank(left, s + right);
    if Blank(s) {
      TrimLeftBlank(s, right);
      TrimLeftBlank(right, "");
      TrimLeftBlank(s, "");
      assert s + "" == s && right + "" == right;
    } else {
      TrimLeftConcat(s, right);
      TrimRightBlank(TrimLeft(s), right);
    }
  }

  lemma LowerKeepsSpace(c: char)
    ensures IsSpace(LowerChar(c)) == IsSpace(c) && LowerChar(LowerChar(c)) == LowerChar(c)
  {
  }

  lemma {:induction false} TrimLeftLower(s: string)
    ensures TrimLeft(ToLower(s)) == ToLower(TrimLeft(s))
  {
    if s != "" {
      LowerKeepsSpace(s[0]);
      assert ToLower(s)[1..] == ToLower(s[1..]);
      TrimLeftLower(s[1..]);
    }
  }

  lemma {:induction false} TrimRightLower(s: string)
    ensures TrimRight(ToLower(s)) == ToLower(TrimRight(s))
  {
    if s != "" {
      var n := |s| - 1;
      LowerKeepsSpace(s[n]);
      assert ToLower(s)[..n] == ToLower(s[..n]);
      TrimRightLower(s[..n]);
    }
  }

  lemma LowerAgain(s: string)
    ensures ToLower(ToLower(s)) == ToLower(s)
  {
  }

  lemma TrimKept(s: string)
    requires s != "" ==> !IsSpace(s[0]) && !IsSpace(s[|s| - 1])
    ensures TrimSpace(s) == s
  {
  }

  lemma TrimDotted(s: string)
    requires s != "" && !IsSpace(s[|s| - 1])
    ensures TrimSpace(s + ".") == TrimSpace(s) + "."
    ensures TrimSpace(s) != "" && TrimSpace(s)[|TrimSpace(s)| - 1] == s[|s| - 1]
  {
    var n := |s| - 1;
    assert s[n] in s;
    TrimLeftConcat(s, ".");
    KeepsLast(s);
  }

  lemma {:induction false} KeepsLast(s: string)
    requires s != "" && !IsSpace(s[|s| - 1])
    ensures TrimLeft(s) != "" && TrimLeft(s)[|TrimLeft(s)| - 1] == s[|s| - 1]
  {
    if IsSpace(s[0]) {
      KeepsLast(s[1..]);
    }
  }

  lemma NormalLower(s: string)
    ensures Normal(ToLower(s)) == Normal(s)
  {
    TrimLeftLower(s);
    TrimRightLower(TrimLeft(s));
    LowerAgain(TrimSpace(s));
  }

  lemma NormalDotted(s: string)
    requires s != "" && s[|s| - 1] != '.' && !IsSpace(s[|s| - 1])
    ensures Normal(s + ".") == Normal(s)
  {
    TrimDotted(s);
    var t := TrimSpace(s);
    assert ToLower(t + ".") == ToLower(t) + ".";
    assert LowerChar(s[|s| - 1]) != '.';
    assert ToLower(t)[|t| - 1] != '.';
  }

  /** Normalising forgets surrounding white space, letter case and a final dot. */
  lemma NormalIgnores(left: string, s: string, right: string)
    requires Blank(left) && Blank(right)
    ensures Normal(left + s + right) == Normal(s) && Normal(ToLower(s)) == Normal(s)
    ensures s != "" && s[|s| - 1] != '.' && !IsSpace(s[|s| - 1]) ==> Normal(s + ".") == Normal(s)
  {
    TrimBlank(left, s, right);
    NormalLower(s);
    if s != "" && s[|s| - 1] != '.' && !IsSpace(s[|s| - 1]) {
      NormalDotted(s);
    }
  }

  /** And nothing else: two lower-case names without those are the same only if they are equal. */
  lemma NormalKeeps(s: string)
    requires ToLower(s) == s && (s != "" ==> !IsSpace(s[0]) && !IsSpace(s[|s| - 1]) && s[|s| - 1] != '.')
    ensures Normal(s) == s
  {
    TrimKept(s);
  }
}
