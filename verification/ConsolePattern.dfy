/** The regular expression of the console's name check, and the names it describes. */
module ConsolePattern {
  import opened Names
  import opened Domains

  // ---------- regular expressions and their languages ----------

  datatype Range = ALPHA | ALPHANUMERIC | ALPHANUMERIC_OR_DASH | ONLY(c: char)

  datatype Regex = Char(range: Range) | Then(first: Regex, rest: Regex) | Maybe(r: Regex) | Times(r: Regex, lo: nat, hi: nat) | Many(r: Regex)

  type Language = iset<string>

  /** Letters match in either case. */
  predicate In(range: Range, c: char) {
    match range
    case ALPHA => 'a' <= c <= 'z' || 'A' <= c <= 'Z'
    case ALPHANUMERIC => 'a' <= c <= 'z' || 'A' <= c <= 'Z' || '0' <= c <= '9'
    case ALPHANUMERIC_OR_DASH => 'a' <= c <= 'z' || 'A' <= c <= 'Z' || '0' <= c <= '9' || c == '-'
    case ONLY(d) => c == d
  }

  ghost function Chars(range: Range): Language {
    iset s: string | |s| == 1 && In(range, s[0])
  }

  ghost function Cat(a: Language, b: Language): Language {
    iset s: string | exists i :: 0 <= i <= |s| && s[..i] in a && s[i..] in b
  }

  ghost function Power(a: Language, n: nat): Language {
    if n == 0 then iset{""} else Cat(a, Power(a, n - 1))
  }

  ghost predicate Repeats(a: Language, n: nat, s: string) {
    s in Power(a, n)
  }

  ghost predicate RepeatsWithin(a: Language, lo: nat, hi: nat, s: string) {
    exists n: nat :: lo <= n <= hi && Repeats(a, n, s)
  }

  ghost predicate RepeatsSome(a: Language, s: string) {
    exists n: nat :: n > 0 && Repeats(a, n, s)
  }

  ghost function Powers(a: Language, lo: nat, hi: nat): Language {
    iset s: string | RepeatsWithin(a, lo, hi, s)
  }

  ghost function Plus(a: Language): Language {
    iset s: string | RepeatsSome(a, s)
  }

  ghost function Lang(r: Regex): Language {
    match r
    case Char(range) => Chars(range)
    case Then(a, b) => Cat(Lang(a), Lang(b))
    case Maybe(a) => Lang(a) + iset{""}
    case Times(a, lo, hi) => Powers(Lang(a), lo, hi)
    case Many(a) => Plus(Lang(a))
  }

  // ---------- the pattern ----------

  const DOT := Char(ONLY('.'))

  const LABEL := Then(Char(ALPHANUMERIC), Maybe(Then(Times(Char(ALPHANUMERIC_OR_DASH), 0, 61), Char(ALPHANUMERIC))))

  const PATTERN := Then(Maybe(Then(Char(ONLY('*')), DOT)), Then(Many(Then(LABEL, DOT)), Times(Char(ALPHA), 2, 63)))

  // ---------- characters ----------

  lemma {:induction false} CharPower(range: Range, n: nat, s: string)
    ensures s in Power(Chars(range), n) <==> |s| == n && forall k | 0 <= k < n :: In(range, s[k])
  {
    if n > 0 && s != "" {
      CharPower(range, n - 1, s[1..]);
      CharFirst(range, Power(Chars(range), n - 1), s);
      assert forall k | 0 < k < |s| :: s[k] == s[1..][k - 1];
      assert forall k | 0 <= k < |s| - 1 :: s[1..][k] == s[k + 1];
    }
  }

  lemma CharFirst(range: Range, b: Language, s: string)
    ensures s in Cat(Chars(range), b) <==> s != "" && In(range, s[0]) && s[1..] in b
  {
    if s != "" {
      assert s[..1] == [s[0]];
    }
  }

  lemma CharLast(a: Language, range: Range, s: string)
    ensures s in Cat(a, Chars(range)) <==> s != "" && s[..|s| - 1] in a && In(range, s[|s| - 1])
  {
    if s != "" {
      assert s[|s| - 1..] == [s[|s| - 1]];
    }
  }

  lemma CharPowers(range: Range, lo: nat, hi: nat, s: string)
    ensures s in Powers(Chars(range), lo, hi) <==> lo <= |s| <= hi && forall k | 0 <= k < |s| :: In(range, s[k])
  {
    CharPower(range, |s|, s);
    assert Repeats(Chars(range), |s|, s) <==> s in Power(Chars(range), |s|);
    if n: nat :| lo <= n <= hi && Repeats(Chars(range), n, s) {
      CharPower(range, n, s);
    }
  }

  lemma SameClasses(c: char)
    ensures In(ALPHA, c) == Letter(c) && In(ALPHANUMERIC, c) == LetterOrDigit(c)
    ensures In(ALPHANUMERIC_OR_DASH, c) == (LetterOrDigit(c) || c == '-')
  {
  }

  lemma TopLevelMatches(s: string)
    ensures s in Powers(Chars(ALPHA), 2, 63) <==> TopLevelOk(s)
  {
    CharPowers(ALPHA, 2, 63, s);
    forall k | 0 <= k < |s| {
      SameClasses(s[k]);
    }
  }

  // ---------- labels ----------

  predicate Inner(s: string) {
    |s| <= 61 && forall k | 0 <= k < |s| :: LetterOrDigit(s[k]) || s[k] == '-'
  }

  lemma InnerMatches(s: string)
    ensures s in Powers(Chars(ALPHANUMERIC_OR_DASH), 0, 61) <==> Inner(s)
  {
    CharPowers(ALPHANUMERIC_OR_DASH, 0, 61, s);
    forall k | 0 <= k < |s| {
      SameClasses(s[k]);
    }
  }

  /** What may follow the first character of a label. */
  predicate Tail(s: string) {
    s != "" && Inner(s[..|s| - 1]) && LetterOrDigit(s[|s| - 1])
  }

  lemma TailMatches(s: string)
    ensures s in Cat(Powers(Chars(ALPHANUMERIC_OR_DASH), 0, 61), Chars(ALPHANUMERIC)) <==> Tail(s)
  {
    CharLast(Powers(Chars(ALPHANUMERIC_OR_DASH), 0, 61), ALPHANUMERIC, s);
    if s != "" {
      InnerMatches(s[..|s| - 1]);
      SameClasses(s[|s| - 1]);
    }
  }

  lemma LabelIs(s: string)
    ensures LabelOk(s) <==> s != "" && LetterOrDigit(s[0]) && (s[1..] == "" || Tail(s[1..]))
  {
    if |s| > 1 {
      var t := s[1..];
      var inner := t[..|t| - 1];
      assert t[|t| - 1] == s[|s| - 1];
      assert forall k | 0 <= k < |inner| :: inner[k] == s[k + 1];
      assert forall k | 1 <= k < |s| - 1 :: s[k] == inner[k - 1];
    }
  }

  lemma LabelMatches(s: string)
    ensures s in Lang(LABEL) <==> LabelOk(s)
  {
    var tail := Cat(Powers(Chars(ALPHANUMERIC_OR_DASH), 0, 61), Chars(ALPHANUMERIC));
    LabelLanguage();
    CharFirst(ALPHANUMERIC, tail + iset{""}, s);
    LabelIs(s);
    if s != "" {
      SameClasses(s[0]);
      TailMatches(s[1..]);
    }
  }

  lemma LabelLanguage()
    ensures Lang(LABEL) == Cat(Chars(ALPHANUMERIC), Cat(Powers(Chars(ALPHANUMERIC_OR_DASH), 0, 61), Chars(ALPHANUMERIC)) + iset{""})
  {
    var dash, any := Char(ALPHANUMERIC_OR_DASH), Char(ALPHANUMERIC);
    assert Lang(Times(dash, 0, 61)) == Powers(Chars(ALPHANUMERIC_OR_DASH), 0, 61);
    assert Lang(Then(Times(dash, 0, 61), any)) == Cat(Powers(Chars(ALPHANUMERIC_OR_DASH), 0, 61), Chars(ALPHANUMERIC));
    assert Lang(Maybe(Then(Times(dash, 0, 61), any))) == Lang(Then(Times(dash, 0, 61), any)) + iset{""};
  }

  /** A label and a dot. */
  predicate Dotted(s: string) {
    s != "" && LabelOk(s[..|s| - 1]) && s[|s| - 1] == '.'
  }

  lemma DottedMatches(s: string)
    ensures s in Cat(Lang(LABEL), Chars(ONLY('.'))) <==> Dotted(s)
  {
    CharLast(Lang(LABEL), ONLY('.'), s);
    if s != "" {
      LabelMatches(s[..|s| - 1]);
    }
  }

  // ---------- splitting at the dots ----------

  lemma LabelHasNoDot(l: string)
    requires LabelOk(l) || TopLevelOk(l)
    ensures '.' !in l
  {
  }

  /** Text in front of a dot splits off when it has none itself. */
  lemma FirstLabel(l: string, rest: string)
    requires '.' !in l
    ensures Split(l + "." + rest) == [l] + Split(rest)
  {
    SplitConcat(l, rest);
    NoDotsNoSplit(l);
  }

  lemma {:induction false} LabelsAreDotless(s: string)
    ensures forall k | 0 <= k < |Split(s)| :: '.' !in Split(s)[k]
  {
    if s != "" {
      LabelsAreDotless(s[1..]);
    }
  }

  lemma DropFirst(s: string)
    requires |Split(s)| > 1
    ensures s == Split(s)[0] + "." + Join(Split(s)[1..]) && Split(Join(Split(s)[1..])) == Split(s)[1..]
  {
    JoinSplit(s);
    LabelsAreDotless(s);
    FirstLabel(Split(s)[0], Join(Split(s)[1..]));
  }

  /** `n` labels and a top level. */
  predicate Body(labels: seq<string>, n: nat) {
    |labels| == n + 1 && TopLevelOk(labels[n]) && forall k | 0 <= k < n :: LabelOk(labels[k])
  }

  lemma BodyMore(l: string, rest: string, n: nat)
    requires n > 0 && LabelOk(l)
    ensures Body(Split(l + "." + rest), n) <==> Body(Split(rest), n - 1)
  {
    LabelHasNoDot(l);
    FirstLabel(l, rest);
    var labels := Split(rest);
    assert ([l] + labels)[1..] == labels;
    assert forall k | 0 <= k < |labels| :: ([l] + labels)[k + 1] == labels[k];
    assert forall k | 0 < k <= |labels| :: ([l] + labels)[k] == labels[k - 1];
  }

  lemma BodyFrom(s: string, n: nat, i: nat)
    requires n > 0 && i <= |s| && Dotted(s[..i])
    ensures Body(Split(s), n) <==> Body(Split(s[i..]), n - 1)
  {
    DottedSplits(s, i);
    BodyMore(s[..i][..i - 1], s[i..], n);
  }

  lemma DottedSplits(s: string, i: nat)
    requires i <= |s| && Dotted(s[..i])
    ensures LabelOk(s[..i][..i - 1]) && s == s[..i][..i - 1] + "." + s[i..]
  {
    var front := s[..i];
    assert front == front[..i - 1] + "." && s == front + s[i..];
  }

  lemma FirstDotted(s: string, n: nat) returns (i: nat)
    requires n > 0 && Body(Split(s), n)
    ensures i <= |s| && Dotted(s[..i])
  {
    DropFirst(s);
    var l, rest := Split(s)[0], Join(Split(s)[1..]);
    i := |l| + 1;
    assert s[..i] == l + "." && s[..i][..i - 1] == l;
  }

  /** A name with a body begins with a label and a dot, and goes on with a shorter body. */
  lemma BodySteps(s: string, n: nat)
    requires n > 0
    ensures Body(Split(s), n) <==> exists i :: 0 <= i <= |s| && Dotted(s[..i]) && Body(Split(s[i..]), n - 1)
  {
    if Body(Split(s), n) {
      var i := FirstDotted(s, n);
      BodyFrom(s, n, i);
    }
    if i :| 0 <= i <= |s| && Dotted(s[..i]) && Body(Split(s[i..]), n - 1) {
      BodyFrom(s, n, i);
    }
  }

  // ---------- the body of the pattern ----------

  lemma CatIn(a: Language, b: Language, s: string, i: nat)
    requires i <= |s| && s[..i] in a && s[i..] in b
    ensures s in Cat(a, b)
  {
  }

  lemma CatAssociates(a: Language, b: Language, c: Language, s: string)
    ensures s in Cat(Cat(a, b), c) <==> s in Cat(a, Cat(b, c))
  {
    if s in Cat(Cat(a, b), c) {
      var i :| 0 <= i <= |s| && s[..i] in Cat(a, b) && s[i..] in c;
      var j :| 0 <= j <= i && s[..i][..j] in a && s[..i][j..] in b;
      assert s[..i][..j] == s[..j] && s[..i][j..] == s[j..][..i - j] && s[j..][i - j..] == s[i..];
      CatIn(b, c, s[j..], i - j);
      CatIn(a, Cat(b, c), s, j);
    }
    if s in Cat(a, Cat(b, c)) {
      var j :| 0 <= j <= |s| && s[..j] in a && s[j..] in Cat(b, c);
      var k :| 0 <= k <= |s[j..]| && s[j..][..k] in b && s[j..][k..] in c;
      assert s[..j + k][..j] == s[..j] && s[..j + k][j..] == s[j..][..k] && s[j + k..] == s[j..][k..];
      CatIn(a, b, s[..j + k], j);
      CatIn(Cat(a, b), c, s, j + k);
    }
  }

  lemma {:induction false} BodyIff(d: Language, t: Language, n: nat, s: string)
    requires (forall x :: x in d <==> Dotted(x)) && (forall x :: x in t <==> TopLevelOk(x))
    ensures s in Cat(Power(d, n), t) <==> Body(Split(s), n)
  {
    if n == 0 {
      EmptyFirst(t, s);
      NoLabels(s);
    } else {
      CatAssociates(d, Power(d, n - 1), t, s);
      forall x: string {
        BodyIff(d, t, n - 1, x);
      }
      BodySteps(s, n);
    }
  }

  lemma EmptyFirst(t: Language, s: string)
    ensures s in Cat(iset{""}, t) <==> s in t
  {
    assert s[..0] == "" && s[0..] == s;
    if s in t {
      CatIn(iset{""}, t, s, 0);
    }
  }

  lemma NoLabels(s: string)
    ensures TopLevelOk(s) <==> Body(Split(s), 0)
  {
    if TopLevelOk(s) {
      LabelHasNoDot(s);
      NoDotsNoSplit(s);
    }
    if |Split(s)| == 1 {
      JoinSplit(s);
    }
  }

  lemma BodyMatches(d: Language, t: Language, s: string)
    requires (forall x :: x in d <==> Dotted(x)) && (forall x :: x in t <==> TopLevelOk(x))
    ensures s in Cat(Plus(d), t) <==> |Split(s)| > 1 && Body(Split(s), |Split(s)| - 1)
  {
    if s in Cat(Plus(d), t) {
      var i :| 0 <= i <= |s| && s[..i] in Plus(d) && s[i..] in t;
      var n: nat :| n > 0 && Repeats(d, n, s[..i]);
      CatIn(Power(d, n), t, s, i);
      BodyIff(d, t, n, s);
    }
    if |Split(s)| > 1 && Body(Split(s), |Split(s)| - 1) {
      var n := |Split(s)| - 1;
      BodyIff(d, t, n, s);
      var i :| 0 <= i <= |s| && s[..i] in Power(d, n) && s[i..] in t;
      assert Repeats(d, n, s[..i]);
      CatIn(Plus(d), t, s, i);
    }
  }

  // ---------- the whole pattern ----------

  lemma StarMatches(s: string)
    ensures s in Cat(Chars(ONLY('*')), Chars(ONLY('.'))) + iset{""} <==> s in {"", "*."}
  {
    CharFirst(ONLY('*'), Chars(ONLY('.')), s);
    if |s| == 2 {
      assert s == [s[0], s[1]] && s[1..] == [s[1]];
    }
  }

  lemma StarFirst(b: Language, s: string)
    ensures s in Cat(Cat(Chars(ONLY('*')), Chars(ONLY('.'))) + iset{""}, b) <==> s in b || (HasPrefix(s, "*.") && s[2..] in b)
  {
    var star := Cat(Chars(ONLY('*')), Chars(ONLY('.'))) + iset{""};
    forall i | 0 <= i <= |s| {
      StarMatches(s[..i]);
    }
    assert s[..0] == "" && s[0..] == s;
    if s in b {
      CatIn(star, b, s, 0);
    }
    if HasPrefix(s, "*.") && s[2..] in b {
      CatIn(star, b, s, 2);
    }
  }

  ghost function PatternBody(): Language {
    Cat(Plus(Cat(Lang(LABEL), Chars(ONLY('.')))), Powers(Chars(ALPHA), 2, 63))
  }

  lemma PatternLanguage()
    ensures Lang(PATTERN) == Cat(Cat(Chars(ONLY('*')), Chars(ONLY('.'))) + iset{""}, PatternBody())
  {
    var star, body := Then(Char(ONLY('*')), DOT), Then(Many(Then(LABEL, DOT)), Times(Char(ALPHA), 2, 63));
    assert Lang(Then(LABEL, DOT)) == Cat(Lang(LABEL), Lang(DOT));
    assert Lang(Many(Then(LABEL, DOT))) == Plus(Lang(Then(LABEL, DOT)));
    assert Lang(Times(Char(ALPHA), 2, 63)) == Powers(Chars(ALPHA), 2, 63);
    assert Lang(body) == PatternBody();
    assert Lang(Maybe(star)) == Lang(star) + iset{""};
  }

  lemma BodyIs(s: string)
    ensures s in PatternBody() <==> |Split(s)| > 1 && Body(Split(s), |Split(s)| - 1)
  {
    forall x: string
      ensures x in Cat(Lang(LABEL), Chars(ONLY('.'))) <==> Dotted(x)
      ensures x in Powers(Chars(ALPHA), 2, 63) <==> TopLevelOk(x)
    {
      DottedMatches(x);
      TopLevelMatches(x);
    }
    BodyMatches(Cat(Lang(LABEL), Chars(ONLY('.'))), Powers(Chars(ALPHA), 2, 63), s);
  }

  /** A body, or a star and a body. */
  predicate Named(labels: seq<string>)
    requires |labels| > 0
  {
    || (|labels| > 1 && Body(labels, |labels| - 1))
    || (labels[0] == "*" && |labels| > 2 && Body(labels[1..], |labels| - 2))
  }

  lemma LabelsAre(labels: seq<string>)
    requires |labels| > 0
    ensures LabelsOk(labels) <==> Named(labels)
  {
    if labels[0] == "*" {
      StarIsNoLabel(labels);
    }
  }

  lemma StarIsNoLabel(labels: seq<string>)
    requires |labels| > 0 && labels[0] == "*"
    ensures |labels| > 1 ==> !Body(labels, |labels| - 1)
  {
    assert labels[0][0] == '*' && !LetterOrDigit('*');
    assert !LabelOk(labels[0]);
  }

  lemma StarredBody(name: string)
    requires IsWildcard(name)
    ensures Split(name)[0] == "*" && |Split(name)| > 1
    ensures name[2..] in PatternBody() <==> |Split(name)| > 2 && Body(Split(name)[1..], |Split(name)| - 2)
  {
    WildcardLabels(name);
    BodyIs(name[2..]);
    assert Split(name)[1..] == Split(name[2..]);
  }

  lemma PlainBody(name: string)
    requires !IsWildcard(name)
    ensures Split(name)[0] != "*" || |Split(name)| == 1
  {
    WildcardLabels(name);
  }

  lemma PatternAccepts(name: string)
    ensures name in Lang(PATTERN) <==> name in PatternBody() || (IsWildcard(name) && name[2..] in PatternBody())
  {
    PatternLanguage();
    StarFirst(PatternBody(), name);
  }

  lemma PatternNames(name: string)
    ensures name in Lang(PATTERN) <==> Named(Split(name))
  {
    PatternAccepts(name);
    BodyIs(name);
    if IsWildcard(name) {
      StarredBody(name);
    } else {
      PlainBody(name);
    }
  }

  /** Looking at a name label by label accepts exactly the names of the pattern, up to 253 characters. */
  lemma NameOkIff(name: string)
    ensures NameOk(name) <==> |name| <= 253 && name in Lang(PATTERN)
  {
    PatternNames(name);
    LabelsAre(Split(name));
  }
}
