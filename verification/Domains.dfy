/** Name checks: redundant exact names on the server and in the console, and DNS zones. */
module Domains {
  import opened Names
  import opened Rows

  // ---------- redundancy in a list of names ----------

  /** Name `i` is exact and some listed wildcard covers it. */
  ghost predicate Redundant(names: seq<string>, i: nat)
    requires i < |names|
  {
    !IsWildcard(names[i]) && exists w :: w in names && Covers(w, names[i])
  }

  /** The parent of a name: everything behind its first label. */
  function Parent(name: string): string {
    Join(Split(name)[1..])
  }

  /** A map lookup by the parent finds the covering wildcard, if there is one. */
  lemma RedundantIff(names: seq<string>, i: nat)
    requires i < |names|
    ensures Redundant(names, i)
            <==> !IsWildcard(names[i]) && |Split(names[i])| > 1 && "*." + Parent(names[i]) in names
    ensures |Split(names[i])| > 1 ==> Covers("*." + Parent(names[i]), names[i]) && names[i] != ""
  {
    forall w | w in names {
      CoversIff(w, names[i]);
    }
    CoversIff("*." + Parent(names[i]), names[i]);
  }

  /** The wildcard map: keyed by what stands behind the star. */
  ghost predicate Indexes(wildcards: map<string, string>, names: seq<string>) {
    && (forall p | p in wildcards :: wildcards[p] == "*." + p)
    && (forall p :: p in wildcards <==> "*." + p in names)
  }

  lemma IndexStep(wildcards: map<string, string>, names: seq<string>, name: string)
    requires Indexes(wildcards, names)
    ensures Indexes(if IsWildcard(name) then wildcards[name[2..] := name] else wildcards, names + [name])
  {
    if IsWildcard(name) {
      assert name == "*." + name[2..];
    }
    forall p
      ensures name == "*." + p <==> IsWildcard(name) && p == name[2..]
    {
      assert ("*." + p)[2..] == p;
    }
  }

  // ---------- the server ----------

  function Normals(domains: seq<string>): (names: seq<string>)
    ensures |names| == |domains| && forall i | 0 <= i < |domains| :: names[i] == Normal(domains[i])
  {
    seq(|domains|, i requires 0 <= i < |domains| => Normal(domains[i]))
  }

  /** What redundantExactDomain promises: `at` is the first redundant name, or the end of the list;
      in the first case that name is returned with a listed wildcard that covers it. */
  ghost predicate FirstRedundant(names: seq<string>, name: string, wildcard: string, at: nat) {
    && at <= |names| && (forall k | 0 <= k < at :: !Redundant(names, k))
    && (if at < |names| then
          && Redundant(names, at) && name == names[at] && name != ""
          && wildcard in names && Covers(wildcard, name)
        else name == "" && wildcard == "")
  }

  /** The first loop: every normalised wildcard under what stands behind its star. */
  method IndexWildcards(domains: seq<string>) returns (wildcards: map<string, string>)
    ensures Indexes(wildcards, Normals(domains))
  {
    ghost var names := Normals(domains);
    wildcards := map[];
    for n := 0 to |domains|
      invariant Indexes(wildcards, names[..n])
    {
      var domainName := Normal(domains[n]);
      IndexStep(wildcards, names[..n], domainName);
      assert names[..n + 1] == names[..n] + [domainName];
      if HasPrefix(domainName, "*.") {
        wildcards := wildcards[TrimPrefix(domainName, "*.") := domainName];
      }
    }
    assert names[..|domains|] == names;
  }

  /** The body of the second loop: look the parent of an exact name up. */
  method FindWildcard(domainName: string, wildcards: map<string, string>, ghost names: seq<string>, ghost n: nat)
    returns (wildcard: Option<string>)
    requires Indexes(wildcards, names) && n < |names| && names[n] == domainName
    ensures wildcard.Some? <==> Redundant(names, n)
    ensures wildcard.Some? ==> domainName != "" && wildcard.value in names && Covers(wildcard.value, domainName)
  {
    RedundantIff(names, n);
    if HasPrefix(domainName, "*.") {
      return None;
    }
    var labels := Split(domainName);
    if |labels| > 1 {
      if Join(labels[1..]) in wildcards {
        return Some(wildcards[Join(labels[1..])]);
      }
    }
    return None;
  }

  lemma FoundFirst(names: seq<string>, name: string, wildcard: string, at: nat)
    requires at < |names| && (forall k | 0 <= k < at :: !Redundant(names, k)) && Redundant(names, at)
    requires name == names[at] && name != "" && wildcard in names && Covers(wildcard, name)
    ensures FirstRedundant(names, name, wildcard, at)
  {
  }

  method RedundantExactDomain(domains: seq<string>) returns (name: string, wildcard: string, ghost at: nat)
    ensures FirstRedundant(Normals(domains), name, wildcard, at)
  {
    ghost var names := Normals(domains);
    var wildcards := IndexWildcards(domains);
    name, wildcard := "", "";
    for n := 0 to |domains|
      invariant forall k | 0 <= k < n :: !Redundant(names, k)
    {
      var domainName := Normal(domains[n]);
      var found := FindWildcard(domainName, wildcards, names, n);
      if found.Some? {
        FoundFirst(names, domainName, found.value, n);
        return domainName, found.value, n;
      }
    }
    at := |domains|;
  }

  // ---------- the console's check ----------

  predicate Letter(c: char) {
    'a' <= LowerChar(c) <= 'z'
  }

  predicate LetterOrDigit(c: char) {
    Letter(c) || '0' <= c <= '9'
  }

  /** [a-z0-9](?:[a-z0-9-]{0,61}[a-z0-9])? */
  predicate LabelOk(l: string) {
    && 1 <= |l| <= 63 && LetterOrDigit(l[0]) && LetterOrDigit(l[|l| - 1])
    && forall k | 0 <= k < |l| :: LetterOrDigit(l[k]) || l[k] == '-'
  }

  /** [a-z]{2,63} */
  predicate TopLevelOk(l: string) {
    2 <= |l| <= 63 && forall k | 0 <= k < |l| :: Letter(l[k])
  }

  /** Labels and a top level. */
  predicate BodyOk(body: seq<string>) {
    && |body| >= 2 && TopLevelOk(body[|body| - 1])
    && forall k | 0 <= k < |body| - 1 :: LabelOk(body[k])
  }

  /** The regular expression, label by label: an optional star and a body. */
  predicate LabelsOk(labels: seq<string>)
    requires |labels| > 0
  {
    if labels[0] == "*" then BodyOk(labels[1..]) else BodyOk(labels)
  }

  predicate NameOk(name: string) {
    |name| <= 253 && LabelsOk(Split(name))
  }

  datatype Verdict = Accepted | Duplicate(name: string) | Invalid(name: string) | Covered(name: string, wildcard: string)

  ghost predicate ConsoleAccepts(domains: seq<string>) {
    && (forall i, j | 0 <= i < j < |domains| :: domains[i] != domains[j])
    && (forall i | 0 <= i < |domains| :: NameOk(domains[i]))
    && (forall i | 0 <= i < |domains| :: !Redundant(domains, i))
  }

  /** validateDomains: no normalisation, duplicates and syntax first. */
  method ValidateDomains(domains: seq<string>) returns (v: Verdict)
    ensures v.Accepted? <==> ConsoleAccepts(domains)
    ensures v.Covered? ==> v.name in domains && v.wildcard in domains && Covers(v.wildcard, v.name)
    ensures v.Invalid? ==> v.name in domains && !NameOk(v.name)
    ensures v.Duplicate? ==> exists i, j :: 0 <= i < j < |domains| && domains[i] == domains[j] == v.name
  {
    var unique: set<string> := {};
    var wildcards: map<string, string> := map[];
    for n := 0 to |domains|
      invariant unique == set i | 0 <= i < n :: domains[i]
      invariant forall i, j | 0 <= i < j < n :: domains[i] != domains[j]
      invariant forall i | 0 <= i < n :: NameOk(domains[i])
      invariant Indexes(wildcards, domains[..n])
    {
      var domain := domains[n];
      if domain in unique {
        return Duplicate(domain);
      }
      unique := unique + {domain};
      if !NameOk(domain) {
        return Invalid(domain);
      }
      IndexStep(wildcards, domains[..n], domain);
      assert domains[..n + 1] == domains[..n] + [domain];
      if HasPrefix(domain, "*.") {
        wildcards := wildcards[domain[2..] := domain];
      }
    }
    assert domains[..|domains|] == domains;
    for n := 0 to |domains|
      invariant forall k | 0 <= k < n :: !Redundant(domains, k)
    {
      var domain := domains[n];
      RedundantIff(domains, n);
      ManyLabels(domain);
      if !HasPrefix(domain, "*.") {
        if Join(Split(domain)[1..]) in wildcards {
          return Covered(domain, wildcards[Join(Split(domain)[1..])]);
        }
      }
    }
    return Accepted;
  }

  lemma ManyLabels(name: string)
    requires NameOk(name)
    ensures |Split(name)| > 1
  {
  }

  // ---------- the two checks agree up to letter case ----------

  lemma FirstChar(name: string)
    requires Split(name)[0] != ""
    ensures name != "" && name[0] == Split(name)[0][0]
  {
  }

  lemma {:induction false} LastChar(name: string)
    requires Split(name)[|Split(name)| - 1] != ""
    ensures var last := Split(name)[|Split(name)| - 1]; name != "" && name[|name| - 1] == last[|last| - 1]
    decreases |name|
  {
    if |name| > 1 {
      LastChar(name[1..]);
    }
  }

  lemma LabelEnds(labels: seq<string>)
    requires |labels| > 0 && LabelsOk(labels)
    ensures labels[0] != "" && !IsSpace(labels[0][0])
    ensures var last := labels[|labels| - 1]; last != "" && Letter(last[|last| - 1])
  {
    var body := if labels[0] == "*" then labels[1..] else labels;
    assert LabelOk(body[0]);
    assert labels[0] == "*" || labels[0] == body[0];
    assert labels[|labels| - 1] == body[|body| - 1];
  }

  lemma Ends(name: string)
    requires NameOk(name)
    ensures name != "" && !IsSpace(name[0]) && Letter(name[|name| - 1])
  {
    LabelEnds(Split(name));
    FirstChar(name);
    LastChar(name);
  }

  /** What the console accepts needs no trimming. */
  lemma NormalIsLower(name: string)
    requires NameOk(name)
    ensures Normal(name) == ToLower(name)
  {
    Ends(name);
    assert TrimLeft(name) == name && TrimRight(name) == name;
    assert ToLower(name)[|name| - 1] != '.';
  }

  function Lowers(domains: seq<string>): (names: seq<string>)
    ensures |names| == |domains| && forall i | 0 <= i < |domains| :: names[i] == ToLower(domains[i])
  {
    seq(|domains|, i requires 0 <= i < |domains| => ToLower(domains[i]))
  }

  /** On well-formed names the server decides by the lower-cased list. */
  lemma ServerDecidesByLowerCase(domains: seq<string>)
    requires forall i | 0 <= i < |domains| :: NameOk(domains[i])
    ensures Normals(domains) == Lowers(domains)
  {
    forall i | 0 <= i < |domains| {
      NormalIsLower(domains[i]);
    }
  }

  // ---------- what the console submits ----------

  predicate Separates(c: char) {
    c == '\n' || c == ','
  }

  /** The text field split at line breaks and commas. */
  function Entries(text: string): (entries: seq<string>)
    ensures |entries| > 0
  {
    if text == "" then [""]
    else if Separates(text[0]) then [""] + Entries(text[1..])
    else
      var rest := Entries(text[1..]);
      [[text[0]] + rest[0]] + rest[1..]
  }

  /** The text with its entries put back between separators. */
  function Glue(entries: seq<string>, separators: string): string
    requires |entries| == |separators| + 1
  {
    if separators == "" then entries[0]
    else entries[0] + [separators[0]] + Glue(entries[1..], separators[1..])
  }

  /** The entries are what lies between the line breaks and commas, and nothing is lost. */
  lemma {:induction false} EntriesAre(text: string) returns (separators: string)
    ensures |Entries(text)| == |separators| + 1 && Glue(Entries(text), separators) == text
    ensures forall c | c in separators :: c in {'\n', ','}
    ensures forall n | 0 <= n < |Entries(text)| :: '\n' !in Entries(text)[n] && ',' !in Entries(text)[n]
  {
    separators := "";
    if text != "" {
      var rest := EntriesAre(text[1..]);
      assert text == [text[0]] + text[1..];
      if Separates(text[0]) {
        separators := [text[0]] + rest;
        assert Entries(text)[1..] == Entries(text[1..]) && separators[1..] == rest;
      } else {
        separators := rest;
        assert Entries(text)[1..] == Entries(text[1..])[1..];
      }
    }
  }

  /** Each entry trimmed and lower-cased, empty ones dropped. */
  function Cleaned(entries: seq<string>): (domains: seq<string>)
    ensures forall d | d in domains :: d != "" && ToLower(d) == d
  {
    if entries == [] then []
    else
      var domain := ToLower(TrimSpace(entries[0]));
      LowerTwice(TrimSpace(entries[0]));
      (if domain == "" then [] else [domain]) + Cleaned(entries[1..])
  }

  lemma LowerTwice(s: string)
    ensures ToLower(ToLower(s)) == ToLower(s)
  {
  }

  /** What both forms check and, once accepted, submit. */
  function Submitted(text: string): seq<string> {
    Cleaned(Entries(text))
  }

  /** The names a user typed are the non-empty entries, trimmed and in lower case. */
  lemma {:induction false} CleanedAre(entries: seq<string>, d: string)
    ensures d in Cleaned(entries) <==> d != "" && exists e :: e in entries && d == ToLower(TrimSpace(e))
  {
    if entries != [] {
      CleanedAre(entries[1..], d);
      assert entries == [entries[0]] + entries[1..];
    }
  }

  /** On submitted names that are well formed, console and server agree: the server names a redundant
      domain if and only if the console found one covered. */
  lemma ChecksAgree(text: string, name: string, wildcard: string, at: nat)
    requires forall d | d in Submitted(text) :: NameOk(d)
    requires FirstRedundant(Normals(Submitted(text)), name, wildcard, at)
    ensures Normals(Submitted(text)) == Submitted(text)
    ensures name != "" <==> exists i :: 0 <= i < |Submitted(text)| && Redundant(Submitted(text), i)
  {
    var domains := Submitted(text);
    assert forall i | 0 <= i < |domains| :: domains[i] in domains;
    ServerDecidesByLowerCase(domains);
    assert Lowers(domains) == domains;
  }

  /** Every list the console accepts and submits passes the server. */
  lemma AcceptedPasses(text: string, name: string, wildcard: string, at: nat)
    requires ConsoleAccepts(Submitted(text))
    requires FirstRedundant(Normals(Submitted(text)), name, wildcard, at)
    ensures name == "" && wildcard == ""
  {
    forall d | d in Submitted(text)
      ensures NameOk(d)
    {
      var i :| 0 <= i < |Submitted(text)| && Submitted(text)[i] == d;
      assert NameOk(Submitted(text)[i]);
    }
    ChecksAgree(text, name, wildcard, at);
  }

  // ---------- zones ----------

  const CHALLENGE := "_acme-challenge"

  /** The labels of the DNS-01 challenge name (RFC 8555 section 8.4) of a normalised name. */
  function ChallengeLabels(name: string): seq<string> {
    [CHALLENGE] + Split(TrimPrefix(name, "*."))
  }

  predicate InZone(name: string, zone: string) {
    zone != "" && IsLabelSuffix(Split(zone), ChallengeLabels(name))
  }

  /** Some non-empty zone of the list is a label suffix of the challenge name. */
  ghost predicate Managed(name: string, zones: seq<string>) {
    exists z :: z in zones && InZone(name, z)
  }

  lemma ZoneTest(name: string, zone: string)
    ensures var challenge := CHALLENGE + "." + TrimPrefix(name, "*.");
            zone != "" && (challenge == zone || HasSuffix(challenge, "." + zone)) <==> InZone(name, zone)
  {
    assert '.' !in CHALLENGE;
    PrefixedLabels(CHALLENGE, TrimPrefix(name, "*."), zone);
  }

  lemma PrefixedLabels(head: string, name: string, zone: string)
    requires '.' !in head
    ensures var full := head + "." + name;
            full == zone || HasSuffix(full, "." + zone) <==> IsLabelSuffix(Split(zone), [head] + Split(name))
  {
    SplitConcat(head, name);
    NoDotsNoSplit(head);
    SuffixIsLabelSuffix(head + "." + name, zone);
  }

  /** certificateDomainsWithinZones. */
  method CertificateDomainsWithinZones(domains: seq<string>, zones: seq<string>) returns (within: bool)
    ensures within <==> forall name | name in Normals(domains) :: Managed(name, Normals(zones))
  {
    ghost var names := Normals(domains);
    for i := 0 to |domains|
      invariant forall name | name in names[..i] :: Managed(name, Normals(zones))
    {
      assert names[..i + 1] == names[..i] + [names[i]];
      var managed := ManagedBy(Normal(domains[i]), zones);
      if !managed {
        assert names[i] in names;
        return false;
      }
    }
    assert names[..|domains|] == names;
    return true;
  }

  /** The inner loop: the flag and its break. */
  method ManagedBy(name: string, zones: seq<string>) returns (managed: bool)
    ensures managed <==> Managed(name, Normals(zones))
  {
    var challenge := CHALLENGE + "." + TrimPrefix(name, "*.");
    ghost var normal := Normals(zones);
    managed := false;
    for j := 0 to |zones|
      invariant !managed && !Managed(name, normal[..j])
    {
      var zone := Normal(zones[j]);
      ZoneTest(name, zone);
      assert normal[..j + 1] == normal[..j] + [zone];
      if zone != "" && (challenge == zone || HasSuffix(challenge, "." + zone)) {
        assert normal[j] in normal;
        managed := true;
        break;
      }
    }
    assert !managed ==> normal[..|zones|] == normal;
  }

  /** More zones never turn an allowed name into a refused one. */
  lemma ZonesMonotone(name: string, zones: seq<string>, more: seq<string>)
    requires Managed(name, Normals(zones)) && forall z | z in zones :: z in more
    ensures Managed(name, Normals(more))
  {
    var z :| z in Normals(zones) && InZone(name, z);
    var j :| 0 <= j < |zones| && Normals(zones)[j] == z;
    assert zones[j] in more;
    var k :| 0 <= k < |more| && more[k] == zones[j];
    assert Normals(more)[k] == z;
  }

  /** The distinct non-empty names, in order of first appearance. */
  function Distinct(names: seq<string>): seq<string> {
    if names == [] then []
    else
      var before, name := Distinct(names[..|names| - 1]), names[|names| - 1];
      if name == "" || name in before then before else before + [name]
  }

  lemma {:induction false} DistinctAre(names: seq<string>)
    ensures forall z :: z in Distinct(names) <==> z != "" && z in names
    ensures forall a, b | 0 <= a < b < |Distinct(names)| ::
              Distinct(names)[a] != Distinct(names)[b]
              && exists i :: 0 <= i < |names| && names[i] == Distinct(names)[a] && Distinct(names)[b] !in names[..i]
  {
    if names != [] {
      var before, last := names[..|names| - 1], names[|names| - 1];
      DistinctAre(before);
      assert names == before + [last];
      forall a, b | 0 <= a < b < |Distinct(names)|
        ensures exists i :: 0 <= i < |names| && names[i] == Distinct(names)[a] && Distinct(names)[b] !in names[..i]
      {
        assert Distinct(names)[a] == Distinct(before)[a] && Distinct(before)[a] in before;
        if b < |Distinct(before)| {
          var i :| 0 <= i < |before| && before[i] == Distinct(before)[a] && Distinct(before)[b] !in before[..i];
          assert names[..i] == before[..i] && names[i] == before[i];
        } else {
          var i :| 0 <= i < |before| && before[i] == Distinct(before)[a];
          assert names[..i] == before[..i] && names[i] == before[i] && last !in before;
        }
      }
    }
  }

  /** normalizeZones. */
  method NormalizeZones(zones: seq<string>) returns (normalized: seq<string>)
    ensures normalized == Distinct(Normals(zones))
  {
    normalized := [];
    var seen: set<string> := {};
    ghost var names := Normals(zones);
    for n := 0 to |zones|
      invariant normalized == Distinct(names[..n])
      invariant seen == set z | z in normalized
    {
      assert names[..n + 1][..n] == names[..n];
      var zone := Normal(zones[n]);
      if zone != "" {
        if zone !in seen {
          seen := seen + {zone};
          normalized := normalized + [zone];
        }
      }
    }
    assert names[..|zones|] == names;
  }
}
