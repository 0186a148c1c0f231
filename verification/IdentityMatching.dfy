/** Matching a discovered identity with the targets already known. */
module IdentityMatching {
  import opened Common

  /** Names, addresses and identifiers as reported. */
  datatype Profile = Profile(names: seq<string>, addresses: seq<string>, identifiers: seq<string>)

  datatype Candidate = Candidate(id: string, name: string, profile: Profile)

  /** How raw values become comparable: each function returns a key, or the empty string. */
  datatype Normal = Normal(
    name: string -> string, address: string -> string, identifier: string -> string,
    isIp: string -> bool, tokens: string -> seq<string>, isDigit: char -> bool
  )

  datatype Kind = SameMachineId | SameName | SameHostname | SameIp | SimilarName

  datatype Clue = Clue(kind: Kind, value: string)

  datatype Confidence = Low | Medium | High

  datatype Match = Match(target: Candidate, confidence: Confidence, clues: set<Clue>, contradicted: bool, score: nat)

  // ----- Fingerprints of names -----

  datatype Fingerprint = Fingerprint(core: string, zone: string, instance: string)

  const ZONES := {"dmz", "trust", "untrust"}

  predicate IsInstance(n: Normal, token: string)
  {
    1 <= |token| <= 3 && forall k :: 0 <= k < |token| ==> n.isDigit(token[k])
  }

  function TrimZeros(s: string): string
  {
    if s != "" && s[0] == '0' then TrimZeros(s[1..]) else s
  }

  function Concat(tokens: seq<string>): string
  {
    if tokens == [] then "" else tokens[0] + Concat(tokens[1..])
  }

  /** A zone stands in front of at least one more word. */
  function ZoneOf(tokens: seq<string>): string
  {
    if |tokens| > 1 && tokens[0] in ZONES then tokens[0] else ""
  }

  function Unzoned(tokens: seq<string>): seq<string>
  {
    if |tokens| > 1 && tokens[0] in ZONES then tokens[1..] else tokens
  }

  /** The number behind at least one more word. */
  function NumberOf(n: Normal, tokens: seq<string>): string
  {
    if |tokens| > 1 && IsInstance(n, tokens[|tokens| - 1]) then tokens[|tokens| - 1] else ""
  }

  function Stem(n: Normal, tokens: seq<string>): seq<string>
  {
    if |tokens| > 1 && IsInstance(n, tokens[|tokens| - 1]) then tokens[..|tokens| - 1] else tokens
  }

  function InstanceOf(digits: string): string
  {
    if digits == "" then "" else if TrimZeros(digits) == "" then "0" else TrimZeros(digits)
  }

  /** A network zone in front and an instance number behind are set apart from the core of a name. */
  function FingerprintOf(n: Normal, name: string): Fingerprint
  {
    var tokens := n.tokens(name);
    var rest := Unzoned(tokens);
    Fingerprint(Concat(Stem(n, rest)), ZoneOf(tokens), InstanceOf(NumberOf(n, rest)))
  }

  lemma {:induction false} ConcatSnoc(tokens: seq<string>)
    requires tokens != []
    ensures Concat(tokens) == Concat(tokens[..|tokens| - 1]) + tokens[|tokens| - 1]
    decreases |tokens|
  {
    if |tokens| == 1 {
      assert tokens[1..] == [] && tokens[..0] == [];
    } else {
      var init := tokens[..|tokens| - 1];
      ConcatSnoc(tokens[1..]);
      assert tokens[1..][..|tokens| - 2] == init[1..];
    }
  }

  lemma NumberSplits(n: Normal, tokens: seq<string>)
    ensures Concat(tokens) == Concat(Stem(n, tokens)) + NumberOf(n, tokens)
  {
    hide IsInstance;
    if tokens != [] {
      ConcatSnoc(tokens);
    }
  }

  lemma ZoneSplits(tokens: seq<string>)
    ensures Concat(tokens) == ZoneOf(tokens) + Concat(Unzoned(tokens))
  {
  }

  /** A fingerprint splits the name in three and loses nothing but the zeros in front of its number. */
  lemma FingerprintSplits(n: Normal, name: string) returns (digits: string)
    ensures var f := FingerprintOf(n, name);
      && Concat(n.tokens(name)) == f.zone + f.core + digits && f.instance == InstanceOf(digits)
      && (f.zone != "" ==> f.zone in ZONES) && (digits != "" ==> IsInstance(n, digits))
  {
    hide Concat, TrimZeros, IsInstance;
    digits := NumberOf(n, Unzoned(n.tokens(name)));
    ZoneSplits(n.tokens(name));
    NumberSplits(n, Unzoned(n.tokens(name)));
  }

  /** A number is kept without the zeros in front of it. */
  lemma InstanceDropsZeros(digits: string)
    ensures InstanceOf("") == "" && InstanceOf("0") == "0"
    ensures digits != "" ==> InstanceOf("0" + digits) == InstanceOf(digits)
    ensures digits != "" && digits[0] != '0' ==> InstanceOf(digits) == digits
  {
    var longer := "0" + digits;
    assert longer[0] == '0' && longer[1..] == digits;
    assert TrimZeros("0") == TrimZeros("0"[1..]) && "0"[1..] == "";
  }

  /** What is put together from a zone, words and a number of at most three digits is taken apart again. */
  lemma FingerprintComposes(n: Normal, name: string, zone: string, words: seq<string>, digits: string)
    requires words != [] && n.tokens(name) ==
      (if zone == "" then [] else [zone]) + words + (if digits == "" then [] else [digits])
    requires if zone == "" then words[0] !in {"dmz", "trust", "untrust"} || |n.tokens(name)| == 1 else zone in {"dmz", "trust", "untrust"}
    requires digits != "" ==> |digits| <= 3 && forall k :: 0 <= k < |digits| ==> n.isDigit(digits[k])
    requires digits == "" && |words| > 1 ==>
      var last := words[|words| - 1]; !(1 <= |last| <= 3 && forall k :: 0 <= k < |last| ==> n.isDigit(last[k]))
    ensures FingerprintOf(n, name) == Fingerprint(Concat(words), zone, InstanceOf(digits))
  {
    hide Concat;
    var tokens, rest := n.tokens(name), words + if digits == "" then [] else [digits];
    assert tokens == (if zone == "" then [] else [zone]) + rest;
    assert Unzoned(tokens) == rest && ZoneOf(tokens) == zone;
    assert Stem(n, rest) == words && NumberOf(n, rest) == digits;
  }

  function FingerprintsOf(n: Normal, names: seq<string>): set<Fingerprint>
  {
    set k | 0 <= k < |names| && FingerprintOf(n, names[k]).core != "" :: FingerprintOf(n, names[k])
  }

  predicate Compatible(a: string, b: string)
  {
    a == "" || b == "" || a == b
  }

  /** Two names are aliases if their cores agree, nothing explicit tells them apart, and they are not equal anyway. */
  predicate Aliases(a: Fingerprint, b: Fingerprint)
  {
    && a.core != "" && a.core == b.core && Compatible(a.zone, b.zone) && Compatible(a.instance, b.instance)
    && !(a.zone == b.zone && a.instance == b.instance)
  }

  function MatchingAliases(left: set<Fingerprint>, right: set<Fingerprint>): set<string>
  {
    set a, b | a in left && b in right && Aliases(a, b) :: a.core
  }

  // ----- Scores -----

  function Normalized(values: seq<string>, normalize: string -> string): set<string>
  {
    set k | 0 <= k < |values| && normalize(values[k]) != "" :: normalize(values[k])
  }

  function SharedNames(n: Normal, a: Profile, b: Profile): set<string>
  {
    Normalized(a.names, n.name) * Normalized(b.names, n.name)
  }

  function SharedAddresses(n: Normal, a: Profile, b: Profile): set<string>
  {
    Normalized(a.addresses, n.address) * Normalized(b.addresses, n.address)
  }

  function SharedIdentifiers(n: Normal, a: Profile, b: Profile): set<string>
  {
    Normalized(a.identifiers, n.identifier) * Normalized(b.identifiers, n.identifier)
  }

  function SharedAliases(n: Normal, a: Profile, b: Profile): set<string>
  {
    MatchingAliases(FingerprintsOf(n, a.names), FingerprintsOf(n, b.names))
  }

  /** Both sides carry identifiers and none is common. */
  predicate Conflict(n: Normal, a: Profile, b: Profile)
  {
    && Normalized(a.identifiers, n.identifier) != {} && Normalized(b.identifiers, n.identifier) != {}
    && SharedIdentifiers(n, a, b) == {}
  }

  function AddressKind(n: Normal, address: string): Kind { if n.isIp(address) then SameIp else SameHostname }

  function Clues(n: Normal, a: Profile, b: Profile): set<Clue>
  {
    (set v | v in SharedIdentifiers(n, a, b) :: Clue(SameMachineId, v)) +
    (set v | v in SharedNames(n, a, b) :: Clue(SameName, v)) +
    (set v | v in SharedAddresses(n, a, b) :: Clue(AddressKind(n, v), v)) +
    (set v | v in SharedAliases(n, a, b) :: Clue(SimilarName, v))
  }

  function Kinds(clues: set<Clue>): set<Kind>
  {
    set c | c in clues :: c.kind
  }

  function Worth(kind: Kind): nat
  {
    match kind
    case SameMachineId => 120
    case SameName => 100
    case SameHostname => 80
    case SameIp => 70
    case SimilarName => 60
  }

  /** The strongest clue. */
  function Strongest(kinds: set<Kind>): nat
  {
    if SameMachineId in kinds then 120 else if SameName in kinds then 100 else if SameHostname in kinds then 80
    else if SameIp in kinds then 70 else if SimilarName in kinds then 60 else 0
  }

  /** The strongest clue, and a little for each further kind of clue. */
  function Score(n: Normal, a: Profile, b: Profile): nat
  {
    var kinds := Kinds(Clues(n, a, b));
    if kinds == {} then 0 else Strongest(kinds) + (|kinds| - 1) * 5
  }

  function ConfidenceOf(score: nat, conflict: bool): Confidence
  {
    if conflict then Low else if score >= 100 then High else if score >= 70 then Medium else Low
  }

  lemma StrongestIsGreatest(kinds: set<Kind>)
    ensures kinds == {} <==> Strongest(kinds) == 0
    ensures forall k :: k in kinds ==> Worth(k) <= Strongest(kinds)
    ensures kinds != {} ==> exists k :: k in kinds && Worth(k) == Strongest(kinds)
  {
    if k :| k in kinds {
      assert k == SameMachineId || k == SameName || k == SameHostname || k == SameIp || k == SimilarName;
    }
  }

  /** The matcher treats both sides alike. */
  lemma ScoreIsSymmetric(n: Normal, a: Profile, b: Profile)
    ensures Clues(n, a, b) == Clues(n, b, a) && Score(n, a, b) == Score(n, b, a) && Conflict(n, a, b) == Conflict(n, b, a)
  {
    AliasesAreSymmetric(FingerprintsOf(n, a.names), FingerprintsOf(n, b.names));
    assert SharedNames(n, a, b) == SharedNames(n, b, a);
    assert SharedAddresses(n, a, b) == SharedAddresses(n, b, a);
    assert SharedIdentifiers(n, a, b) == SharedIdentifiers(n, b, a);
  }

  lemma AliasesAreSymmetric(left: set<Fingerprint>, right: set<Fingerprint>)
    ensures MatchingAliases(left, right) == MatchingAliases(right, left)
  {
    forall a, b | a in left && b in right && Aliases(a, b)
      ensures a.core in MatchingAliases(right, left)
    {
      assert Aliases(b, a);
    }
    forall a, b | a in right && b in left && Aliases(a, b)
      ensures a.core in MatchingAliases(left, right)
    {
      assert Aliases(b, a);
    }
  }

  lemma KindCount(kinds: set<Kind>, all: set<Kind>)
    requires kinds <= all
    ensures |kinds| <= |all|
  {
    assert all == kinds + (all - kinds);
  }

  /** A match scores between 60 and 140. */
  lemma ScoreIsBounded(n: Normal, a: Profile, b: Profile)
    ensures Score(n, a, b) <= 140 && (Score(n, a, b) > 0 ==> Score(n, a, b) >= 60)
    ensures Score(n, a, b) == 0 <==> Clues(n, a, b) == {}
  {
    hide Clues;
    var kinds := Kinds(Clues(n, a, b));
    StrongestIsGreatest(kinds);
    assert forall k :: k in kinds ==> k in {SameMachineId, SameName, SameHostname, SameIp, SimilarName};
    KindCount(kinds, {SameMachineId, SameName, SameHostname, SameIp, SimilarName});
    if c :| c in Clues(n, a, b) {
      assert c.kind in kinds;
    }
  }

  /** Both sides have a value of key `v`. */
  predicate Both(a: seq<string>, b: seq<string>, normalize: string -> string, v: string)
  {
    v != "" && (exists k :: 0 <= k < |a| && normalize(a[k]) == v) && (exists l :: 0 <= l < |b| && normalize(b[l]) == v)
  }

  /** Names `k` and `l` have the same core, one zone or number at most where they differ, and do differ. */
  predicate Alike(n: Normal, a: Profile, b: Profile, k: nat, l: nat, core: string)
    requires k < |a.names| && l < |b.names|
  {
    var f, g := FingerprintOf(n, a.names[k]), FingerprintOf(n, b.names[l]);
    && f.core == g.core == core != "" && (f.zone != g.zone || f.instance != g.instance)
    && (f.zone == "" || g.zone == "" || f.zone == g.zone) && (f.instance == "" || g.instance == "" || f.instance == g.instance)
  }

  predicate SimilarNames(n: Normal, a: Profile, b: Profile, core: string)
  {
    exists k: nat, l: nat :: k < |a.names| && l < |b.names| && Alike(n, a, b, k, l, core)
  }

  lemma NormalizedMeaning(a: seq<string>, b: seq<string>, normalize: string -> string, v: string)
    ensures v in Normalized(a, normalize) * Normalized(b, normalize) <==> Both(a, b, normalize, v)
    ensures v in Normalized(a, normalize) <==> v != "" && exists k :: 0 <= k < |a| && normalize(a[k]) == v
  {
  }

  lemma AliasMeaning(n: Normal, a: Profile, b: Profile, core: string)
    ensures core in SharedAliases(n, a, b) <==> SimilarNames(n, a, b, core)
  {
    hide FingerprintOf;
    var left, right := FingerprintsOf(n, a.names), FingerprintsOf(n, b.names);
    if core in SharedAliases(n, a, b) {
      var f, g :| f in left && g in right && Aliases(f, g) && f.core == core;
      var k: nat :| k < |a.names| && FingerprintOf(n, a.names[k]) == f;
      var l: nat :| l < |b.names| && FingerprintOf(n, b.names[l]) == g;
      assert Alike(n, a, b, k, l, core);
    }
    if k: nat, l: nat :| k < |a.names| && l < |b.names| && Alike(n, a, b, k, l, core) {
      var f, g := FingerprintOf(n, a.names[k]), FingerprintOf(n, b.names[l]);
      assert f in left && g in right && Aliases(f, g);
    }
  }

  /** The evidence of a match, value by value. */
  lemma CluesMeaning(n: Normal, a: Profile, b: Profile, v: string)
    ensures var clues := Clues(n, a, b);
      && (Clue(SameMachineId, v) in clues <==> Both(a.identifiers, b.identifiers, n.identifier, v))
      && (Clue(SameName, v) in clues <==> Both(a.names, b.names, n.name, v))
      && (Clue(SameHostname, v) in clues <==> Both(a.addresses, b.addresses, n.address, v) && !n.isIp(v))
      && (Clue(SameIp, v) in clues <==> Both(a.addresses, b.addresses, n.address, v) && n.isIp(v))
      && (Clue(SimilarName, v) in clues <==> SimilarNames(n, a, b, v))
  {
    hide Normalized, SharedAliases, Both, SimilarNames;
    NormalizedMeaning(a.identifiers, b.identifiers, n.identifier, v);
    NormalizedMeaning(a.names, b.names, n.name, v);
    NormalizedMeaning(a.addresses, b.addresses, n.address, v);
    AliasMeaning(n, a, b, v);
    if v in SharedAddresses(n, a, b) {
      assert Clue(AddressKind(n, v), v) in Clues(n, a, b);
    }
  }

  /** The five facts a score depends on. */
  ghost predicate SharesMachine(n: Normal, a: Profile, b: Profile) { exists v :: Both(a.identifiers, b.identifiers, n.identifier, v) }

  ghost predicate SharesName(n: Normal, a: Profile, b: Profile) { exists v :: Both(a.names, b.names, n.name, v) }

  ghost predicate SharesHostname(n: Normal, a: Profile, b: Profile)
  {
    exists v :: Both(a.addresses, b.addresses, n.address, v) && !n.isIp(v)
  }

  ghost predicate SharesIp(n: Normal, a: Profile, b: Profile)
  {
    exists v :: Both(a.addresses, b.addresses, n.address, v) && n.isIp(v)
  }

  ghost predicate SharesAlias(n: Normal, a: Profile, b: Profile) { exists v :: SimilarNames(n, a, b, v) }

  lemma KindPresent(n: Normal, a: Profile, b: Profile, kind: Kind)
    ensures kind in Kinds(Clues(n, a, b)) <==> exists v :: Clue(kind, v) in Clues(n, a, b)
  {
    hide Clues;
    if kind in Kinds(Clues(n, a, b)) {
      var c :| c in Clues(n, a, b) && c.kind == kind;
      assert c == Clue(kind, c.value);
    }
    if v :| Clue(kind, v) in Clues(n, a, b) {
      assert Clue(kind, v).kind == kind;
    }
  }

  lemma AllKindsMean(n: Normal, a: Profile, b: Profile)
    ensures var kinds := Kinds(Clues(n, a, b));
      && (SameMachineId in kinds <==> SharesMachine(n, a, b)) && (SameName in kinds <==> SharesName(n, a, b))
      && (SameHostname in kinds <==> SharesHostname(n, a, b)) && (SameIp in kinds <==> SharesIp(n, a, b))
      && (SimilarName in kinds <==> SharesAlias(n, a, b))
  {
    hide Clues, Kinds, Both, SimilarNames;
    KindPresent(n, a, b, SameMachineId);
    KindPresent(n, a, b, SameName);
    KindPresent(n, a, b, SameHostname);
    KindPresent(n, a, b, SameIp);
    KindPresent(n, a, b, SimilarName);
    forall v
      ensures Clue(SameMachineId, v) in Clues(n, a, b) <==> Both(a.identifiers, b.identifiers, n.identifier, v)
      ensures Clue(SameName, v) in Clues(n, a, b) <==> Both(a.names, b.names, n.name, v)
      ensures Clue(SameHostname, v) in Clues(n, a, b) <==> Both(a.addresses, b.addresses, n.address, v) && !n.isIp(v)
      ensures Clue(SameIp, v) in Clues(n, a, b) <==> Both(a.addresses, b.addresses, n.address, v) && n.isIp(v)
      ensures Clue(SimilarName, v) in Clues(n, a, b) <==> SimilarNames(n, a, b, v)
    {
      CluesMeaning(n, a, b, v);
    }
  }

  function One(b: bool): nat { if b then 1 else 0 }

  lemma KindsCounted(kinds: set<Kind>)
    ensures |kinds| == One(SameMachineId in kinds) + One(SameName in kinds) + One(SameHostname in kinds) + One(SameIp in kinds) +
      One(SimilarName in kinds)
  {
    var k0 := kinds - {SameMachineId};
    var k1 := k0 - {SameName};
    var k2 := k1 - {SameHostname};
    var k3 := k2 - {SameIp};
    Without(kinds, SameMachineId);
    Without(k0, SameName);
    Without(k1, SameHostname);
    Without(k2, SameIp);
    Without(k3, SimilarName);
    NoKind(k3 - {SimilarName});
  }

  lemma NoKind(kinds: set<Kind>)
    requires !(SameMachineId in kinds) && !(SameName in kinds) && !(SameHostname in kinds) && !(SameIp in kinds) && !(SimilarName in kinds)
    ensures |kinds| == 0
  {
    if k :| k in kinds {
      match k
      case SameMachineId =>
      case SameName =>
      case SameHostname =>
      case SameIp =>
      case SimilarName =>
    }
  }

  lemma Without(kinds: set<Kind>, k: Kind)
    ensures |kinds| == |kinds - {k}| + One(k in kinds)
  {
    if k in kinds {
      assert kinds == (kinds - {k}) + {k};
    } else {
      assert kinds == kinds - {k};
    }
  }

  /** The score, told from the profiles: the strongest of the five facts, and five for each further one. */
  lemma ScoreMeaning(n: Normal, a: Profile, b: Profile)
    ensures
      var count := One(SharesMachine(n, a, b)) + One(SharesName(n, a, b)) + One(SharesHostname(n, a, b)) + One(SharesIp(n, a, b)) +
                   One(SharesAlias(n, a, b));
      var best := if SharesMachine(n, a, b) then 120 else if SharesName(n, a, b) then 100 else if SharesHostname(n, a, b) then 80
                  else if SharesIp(n, a, b) then 70 else 60;
      Score(n, a, b) == if count == 0 then 0 else best + 5 * (count - 1)
  {
    hide Clues, Kinds, SharesMachine, SharesName, SharesHostname, SharesIp, SharesAlias;
    AllKindsMean(n, a, b);
    KindsCounted(Kinds(Clues(n, a, b)));
  }

  /** A shared host name outweighs a shared IP address, whatever names look alike. */
  lemma HostnameOutranksIp(n: Normal, discovered: Profile, a: Profile, b: Profile)
    requires SharesHostname(n, discovered, a)
    requires SharesIp(n, discovered, b) && !SharesHostname(n, discovered, b)
    requires !SharesName(n, discovered, b) && !SharesMachine(n, discovered, b)
    ensures Score(n, discovered, a) > Score(n, discovered, b)
  {
    hide Score, SharesMachine, SharesName, SharesHostname, SharesIp, SharesAlias;
    ScoreMeaning(n, discovered, a);
    ScoreMeaning(n, discovered, b);
  }

  lemma ConflictMeaning(n: Normal, a: Profile, b: Profile)
    ensures Conflict(n, a, b) <==>
      && (exists k :: 0 <= k < |a.identifiers| && n.identifier(a.identifiers[k]) != "")
      && (exists l :: 0 <= l < |b.identifiers| && n.identifier(b.identifiers[l]) != "")
      && !SharesMachine(n, a, b)
  {
    hide Both;
    forall v
      ensures v in SharedIdentifiers(n, a, b) <==> Both(a.identifiers, b.identifiers, n.identifier, v)
    {
      NormalizedMeaning(a.identifiers, b.identifiers, n.identifier, v);
    }
    if k :| 0 <= k < |a.identifiers| && n.identifier(a.identifiers[k]) != "" {
      assert n.identifier(a.identifiers[k]) in Normalized(a.identifiers, n.identifier);
    }
    if l :| 0 <= l < |b.identifiers| && n.identifier(b.identifiers[l]) != "" {
      assert n.identifier(b.identifiers[l]) in Normalized(b.identifiers, n.identifier);
    }
    if v :| v in Normalized(a.identifiers, n.identifier) {
      var k :| 0 <= k < |a.identifiers| && n.identifier(a.identifiers[k]) == v;
    }
    if v :| v in Normalized(b.identifiers, n.identifier) {
      var l :| 0 <= l < |b.identifiers| && n.identifier(b.identifiers[l]) == v;
    }
  }

  /** High for a shared name or machine identifier, medium for a shared address, low otherwise or where identifiers conflict. */
  lemma ConfidenceMeaning(n: Normal, a: Profile, b: Profile)
    ensures var confidence := ConfidenceOf(Score(n, a, b), Conflict(n, a, b));
      && (confidence == High <==> !Conflict(n, a, b) && (SharesName(n, a, b) || SharesMachine(n, a, b)))
      && (confidence == Medium <==>
            && !Conflict(n, a, b) && !SharesName(n, a, b) && !SharesMachine(n, a, b)
            && (SharesHostname(n, a, b) || SharesIp(n, a, b)))
  {
    hide Score, Conflict, SharesMachine, SharesName, SharesHostname, SharesIp, SharesAlias;
    ScoreMeaning(n, a, b);
  }

  // ----- The candidate index -----

  datatype Key = NameKey(value: string) | AddressKey(value: string) | IdentifierKey(value: string) | AliasKey(value: string)

  function CandidateKeys(n: Normal, p: Profile): set<Key>
  {
    (set v | v in Normalized(p.names, n.name) :: NameKey(v)) +
    (set v | v in Normalized(p.addresses, n.address) :: AddressKey(v)) +
    (set v | v in Normalized(p.identifiers, n.identifier) :: IdentifierKey(v)) +
    (set f | f in FingerprintsOf(n, p.names) :: AliasKey(f.core))
  }

  /** The keys an identity is indexed under. */
  lemma CandidateKeysMean(n: Normal, p: Profile)
    ensures var keys := CandidateKeys(n, p);
      && (forall v :: NameKey(v) in keys <==> v != "" && exists k :: 0 <= k < |p.names| && n.name(p.names[k]) == v)
      && (forall v :: AddressKey(v) in keys <==> v != "" && exists k :: 0 <= k < |p.addresses| && n.address(p.addresses[k]) == v)
      && (forall v :: IdentifierKey(v) in keys <==> v != "" && exists k :: 0 <= k < |p.identifiers| && n.identifier(p.identifiers[k]) == v)
      && (forall v :: AliasKey(v) in keys <==> v != "" && exists k :: 0 <= k < |p.names| && FingerprintOf(n, p.names[k]).core == v)
  {
    hide FingerprintOf;
    forall v
      ensures AliasKey(v) in CandidateKeys(n, p) <==> v != "" && exists k :: 0 <= k < |p.names| && FingerprintOf(n, p.names[k]).core == v
    {
      if k :| 0 <= k < |p.names| && FingerprintOf(n, p.names[k]).core == v && v != "" {
        assert FingerprintOf(n, p.names[k]) in FingerprintsOf(n, p.names);
      }
    }
  }

  /** The text a key is stored as. */
  function KeyText(key: Key): string
  {
    match key
    case NameKey(v) => "name:" + v
    case AddressKey(v) => "address:" + v
    case IdentifierKey(v) => "identifier:" + v
    case AliasKey(v) => "alias:" + v
  }

  /** Keys of different sorts never collide. */
  lemma KeyTextIsInjective(a: Key, b: Key)
    requires KeyText(a) == KeyText(b)
    ensures a == b
  {
    assert KeyText(a)[0] == KeyText(b)[0] && KeyText(a)[1] == KeyText(b)[1];
    match a
    case NameKey(v) =>
      assert KeyText(a)[5..] == v;
      assert KeyText(b)[5..] == b.value;
    case AddressKey(v) =>
      assert KeyText(a)[8..] == v;
      assert KeyText(b)[8..] == b.value;
    case IdentifierKey(v) =>
      assert KeyText(a)[11..] == v;
      assert KeyText(b)[11..] == b.value;
    case AliasKey(v) =>
      assert KeyText(a)[6..] == v;
      assert KeyText(b)[6..] == b.value;
  }

  /** Whenever two identities match, the index has a key common to both. */
  lemma IndexIsComplete(n: Normal, a: Profile, b: Profile)
    requires Score(n, a, b) > 0
    ensures CandidateKeys(n, a) * CandidateKeys(n, b) != {}
  {
    hide FingerprintsOf, Normalized, FingerprintOf;
    var clue :| clue in Clues(n, a, b);
    if v :| v in SharedIdentifiers(n, a, b) {
      assert IdentifierKey(v) in CandidateKeys(n, a) * CandidateKeys(n, b);
    } else if v :| v in SharedNames(n, a, b) {
      assert NameKey(v) in CandidateKeys(n, a) * CandidateKeys(n, b);
    } else if v :| v in SharedAddresses(n, a, b) {
      assert AddressKey(v) in CandidateKeys(n, a) * CandidateKeys(n, b);
    } else {
      var v :| v in SharedAliases(n, a, b);
      assert AliasKey(v) in CandidateKeys(n, a) * CandidateKeys(n, b);
    }
  }

  // ----- Matching a list of targets -----

  function MatchOf(n: Normal, discovered: Profile, c: Candidate): Match
  {
    var score := Score(n, discovered, c.profile);
    var conflict := Conflict(n, discovered, c.profile);
    Match(c, ConfidenceOf(score, conflict), Clues(n, discovered, c.profile), conflict, score)
  }

  /** The targets that match, in the order they are listed. */
  function Found(n: Normal, discovered: Profile, targets: seq<Candidate>): seq<Match>
  {
    if targets == [] then []
    else
      var init := Found(n, discovered, targets[..|targets| - 1]);
      var last := targets[|targets| - 1];
      if Score(n, discovered, last.profile) == 0 then init else init + [MatchOf(n, discovered, last)]
  }

  /** The order of presentation: best score, then name, then id. */
  predicate Precedes(n: Normal, a: Match, b: Match)
  {
    if a.score != b.score then a.score > b.score
    else if n.name(a.target.name) != n.name(b.target.name) then Less(n.name(a.target.name), n.name(b.target.name))
    else Less(a.target.id, b.target.id)
  }

  function Place(n: Normal, m: Match, sorted: seq<Match>): seq<Match>
  {
    if sorted == [] || !Precedes(n, m, sorted[|sorted| - 1]) then sorted + [m]
    else Place(n, m, sorted[..|sorted| - 1]) + [sorted[|sorted| - 1]]
  }

  function Arrange(n: Normal, ms: seq<Match>): seq<Match>
  {
    if ms == [] then [] else Place(n, ms[|ms| - 1], Arrange(n, ms[..|ms| - 1]))
  }

  function MatchTargets(n: Normal, discovered: Profile, targets: seq<Candidate>): seq<Match>
  {
    Arrange(n, Found(n, discovered, targets))
  }

  function Sharing(n: Normal, discovered: Profile, targets: seq<Candidate>): seq<Candidate>
  {
    if targets == [] then []
    else
      var init := Sharing(n, discovered, targets[..|targets| - 1]);
      var last := targets[|targets| - 1];
      if CandidateKeys(n, discovered) * CandidateKeys(n, last.profile) == {} then init else init + [last]
  }

  /** The index lists exactly the targets that share a key. */
  lemma {:induction false} SharingMeans(n: Normal, discovered: Profile, targets: seq<Candidate>, c: Candidate)
    ensures c in Sharing(n, discovered, targets) <==>
      c in targets && exists key :: key in CandidateKeys(n, discovered) && key in CandidateKeys(n, c.profile)
  {
    hide CandidateKeys;
    if targets != [] {
      SharingMeans(n, discovered, targets[..|targets| - 1], c);
      assert targets == targets[..|targets| - 1] + [targets[|targets| - 1]];
      if key :| key in CandidateKeys(n, discovered) && key in CandidateKeys(n, c.profile) {
        assert key in CandidateKeys(n, discovered) * CandidateKeys(n, c.profile);
      }
    }
  }

  lemma FoundSnoc(n: Normal, discovered: Profile, targets: seq<Candidate>, c: Candidate)
    ensures Found(n, discovered, targets + [c]) ==
      Found(n, discovered, targets) + if Score(n, discovered, c.profile) == 0 then [] else [MatchOf(n, discovered, c)]
  {
    assert (targets + [c])[..|targets|] == targets;
  }

  /** Looking only at the targets that share a key finds exactly what the full scan finds. */
  lemma {:induction false} IndexedScanIsFullScan(n: Normal, discovered: Profile, targets: seq<Candidate>)
    ensures MatchTargets(n, discovered, Sharing(n, discovered, targets)) == MatchTargets(n, discovered, targets)
    ensures Found(n, discovered, Sharing(n, discovered, targets)) == Found(n, discovered, targets)
  {
    hide Score, CandidateKeys, MatchOf;
    if targets != [] {
      var init, last := targets[..|targets| - 1], targets[|targets| - 1];
      IndexedScanIsFullScan(n, discovered, init);
      FoundSnoc(n, discovered, Sharing(n, discovered, init), last);
      if Score(n, discovered, last.profile) > 0 {
        IndexIsComplete(n, discovered, last.profile);
      }
    }
  }

  // ----- The list of matches -----

  lemma NotPrecedesTransitive(n: Normal, a: Match, b: Match, c: Match)
    requires !Precedes(n, b, a) && !Precedes(n, c, b)
    ensures !Precedes(n, c, a)
  {
    if a.score == b.score && b.score == c.score {
      var x, y, z := n.name(a.target.name), n.name(b.target.name), n.name(c.target.name);
      LessIrreflexive(x);
      LessIrreflexive(y);
      NotLessTransitive(x, y, z);
      if x == y && y == z {
        NotLessTransitive(a.target.id, b.target.id, c.target.id);
      } else {
        LessTotal(x, y);
      }
    }
  }

  lemma LessIrreflexive(s: string)
    ensures !Less(s, s)
  {
    if Less(s, s) {
      LessAsymmetric(s, s);
    }
  }

  lemma PrecedesAsymmetric(n: Normal, a: Match, b: Match)
    requires Precedes(n, a, b)
    ensures !Precedes(n, b, a)
  {
    if a.score == b.score {
      if n.name(a.target.name) != n.name(b.target.name) {
        LessAsymmetric(n.name(a.target.name), n.name(b.target.name));
      } else {
        LessAsymmetric(a.target.id, b.target.id);
      }
    }
  }

  predicate Arranged(n: Normal, ms: seq<Match>)
  {
    forall k, l :: 0 <= k < l < |ms| ==> !Precedes(n, ms[l], ms[k])
  }

  lemma ArrangedSnoc(n: Normal, ms: seq<Match>, last: Match)
    requires Arranged(n, ms) && forall x :: x in ms ==> !Precedes(n, last, x)
    ensures Arranged(n, ms + [last])
  {
    hide Precedes;
  }

  lemma {:induction false} PlaceArranges(n: Normal, m: Match, sorted: seq<Match>)
    requires Arranged(n, sorted)
    ensures Arranged(n, Place(n, m, sorted)) && forall x :: x in Place(n, m, sorted) ==> x == m || x in sorted
  {
    hide Precedes;
    if sorted != [] {
      var init, last := sorted[..|sorted| - 1], sorted[|sorted| - 1];
      if Precedes(n, m, last) {
        PlaceArranges(n, m, init);
        PrecedesAsymmetric(n, m, last);
        assert forall x :: x in init ==> !Precedes(n, last, x);
        ArrangedSnoc(n, Place(n, m, init), last);
      } else {
        forall x | x in sorted
          ensures !Precedes(n, m, x)
        {
          if x != last {
            NotPrecedesTransitive(n, x, last, m);
          }
        }
        ArrangedSnoc(n, sorted, m);
      }
    }
  }

  lemma {:induction false} ArrangeArranges(n: Normal, ms: seq<Match>)
    ensures Arranged(n, Arrange(n, ms))
  {
    if ms != [] {
      ArrangeArranges(n, ms[..|ms| - 1]);
      PlaceArranges(n, ms[|ms| - 1], Arrange(n, ms[..|ms| - 1]));
    }
  }

  /**
   * The list has exactly the targets that share something, each once, with what they share: the best score first, then
   * by name, then by id.
   */
  lemma MatchesMeaning(n: Normal, discovered: Profile, targets: seq<Candidate>)
    requires DistinctIds(targets)
    ensures var ms := MatchTargets(n, discovered, targets);
      && (forall c :: c in targets && Score(n, discovered, c.profile) > 0 ==> exists k :: 0 <= k < |ms| && ms[k].target == c)
      && (forall k :: 0 <= k < |ms| ==> var m := ms[k];
            && m.target in targets && m.score == Score(n, discovered, m.target.profile) > 0
            && m.contradicted == Conflict(n, discovered, m.target.profile) && m.clues == Clues(n, discovered, m.target.profile)
            && m.confidence == ConfidenceOf(m.score, m.contradicted))
      && (forall k, l :: 0 <= k < l < |ms| ==>
            && ms[k].target != ms[l].target && ms[k].score >= ms[l].score
            && (ms[k].score == ms[l].score ==> !Less(n.name(ms[l].target.name), n.name(ms[k].target.name)))
            && (ms[k].score == ms[l].score && n.name(ms[k].target.name) == n.name(ms[l].target.name) ==>
                  !Less(ms[l].target.id, ms[k].target.id)))
  {
    hide Score, Conflict, Clues, ConfidenceOf, Place, Arrange;
    var found, ms := Found(n, discovered, targets), MatchTargets(n, discovered, targets);
    ArrangeByScore(n, found);
    ArrangeArranges(n, found);
    FoundMeaning(n, discovered, targets);
    FoundOnce(n, discovered, targets);
    SameMembers(ms, found);
    forall c | c in targets && Score(n, discovered, c.profile) > 0
      ensures exists k :: 0 <= k < |ms| && ms[k].target == c
    {
      assert MatchOf(n, discovered, c) in ms;
    }
    forall k | 0 <= k < |ms|
      ensures ms[k] == MatchOf(n, discovered, ms[k].target) && ms[k].target in targets && Score(n, discovered, ms[k].target.profile) > 0
    {
      assert ms[k] in ms;
    }
    forall k, l | 0 <= k < l < |ms|
      ensures ms[k].target != ms[l].target && ms[k].score >= ms[l].score
      ensures ms[k].score == ms[l].score ==> !Less(n.name(ms[l].target.name), n.name(ms[k].target.name))
      ensures ms[k].score == ms[l].score && n.name(ms[k].target.name) == n.name(ms[l].target.name) ==>
        !Less(ms[l].target.id, ms[k].target.id)
    {
      assert !Precedes(n, ms[l], ms[k]) && ms[k] != ms[l];
      LessIrreflexive(n.name(ms[k].target.name));
    }
  }

  // ----- Suggestions -----

  /** The best match, if it is alone at the top, strong enough and not contradicted. */
  function Suggested(ms: seq<Match>): Option<Candidate>
  {
    if ms == [] || ms[0].score < 70 || ms[0].contradicted || (|ms| > 1 && ms[0].score == ms[1].score) then None
    else Some(ms[0].target)
  }

  predicate ByScore(ms: seq<Match>)
  {
    forall k, l :: 0 <= k < l < |ms| ==> ms[k].score >= ms[l].score
  }

  lemma {:induction false} PlaceKeeps(n: Normal, m: Match, sorted: seq<Match>)
    ensures multiset(Place(n, m, sorted)) == multiset(sorted) + multiset{m}
  {
    if sorted != [] && Precedes(n, m, sorted[|sorted| - 1]) {
      assert sorted == sorted[..|sorted| - 1] + [sorted[|sorted| - 1]];
      PlaceKeeps(n, m, sorted[..|sorted| - 1]);
    }
  }

  lemma {:induction false} PlaceByScore(n: Normal, m: Match, sorted: seq<Match>)
    requires ByScore(sorted)
    ensures ByScore(Place(n, m, sorted))
    ensures forall x :: x in Place(n, m, sorted) ==> x == m || x in sorted
  {
    hide Precedes;
    if sorted != [] {
      var init, last := sorted[..|sorted| - 1], sorted[|sorted| - 1];
      if Precedes(n, m, last) {
        PrecedesByScore(n, m, last);
        PlaceByScore(n, m, init);
        AppendByScore(Place(n, m, init), last);
      } else {
        FollowsByScore(n, m, last);
        AppendByScore(sorted, m);
      }
    }
  }

  lemma PrecedesByScore(n: Normal, m: Match, last: Match)
    requires Precedes(n, m, last)
    ensures m.score >= last.score
  {
  }

  lemma FollowsByScore(n: Normal, m: Match, last: Match)
    requires !Precedes(n, m, last)
    ensures m.score <= last.score
  {
  }

  lemma AppendByScore(ms: seq<Match>, last: Match)
    requires ByScore(ms) && forall x :: x in ms ==> x.score >= last.score
    ensures ByScore(ms + [last])
  {
  }

  lemma {:induction false} ArrangeByScore(n: Normal, ms: seq<Match>)
    ensures ByScore(Arrange(n, ms)) && multiset(Arrange(n, ms)) == multiset(ms)
  {
    if ms != [] {
      assert ms == ms[..|ms| - 1] + [ms[|ms| - 1]];
      ArrangeByScore(n, ms[..|ms| - 1]);
      PlaceByScore(n, ms[|ms| - 1], Arrange(n, ms[..|ms| - 1]));
      PlaceKeeps(n, ms[|ms| - 1], Arrange(n, ms[..|ms| - 1]));
    }
  }

  /** `c` scores strictly above every other target, is strong enough and is not contradicted. */
  ghost predicate Winner(n: Normal, discovered: Profile, targets: seq<Candidate>, c: Candidate)
  {
    && c in targets && Score(n, discovered, c.profile) >= 70 && !Conflict(n, discovered, c.profile)
    && forall d :: d in targets && d != c ==> Score(n, discovered, d.profile) < Score(n, discovered, c.profile)
  }

  ghost predicate DistinctIds(targets: seq<Candidate>)
  {
    forall k, l :: 0 <= k < l < |targets| ==> targets[k].id != targets[l].id
  }

  lemma {:induction false} FoundMeaning(n: Normal, discovered: Profile, targets: seq<Candidate>)
    ensures forall m :: m in Found(n, discovered, targets) <==>
      m.target in targets && m == MatchOf(n, discovered, m.target) && Score(n, discovered, m.target.profile) > 0
  {
    if targets != [] {
      FoundMeaning(n, discovered, targets[..|targets| - 1]);
      assert targets == targets[..|targets| - 1] + [targets[|targets| - 1]];
    }
  }

  lemma {:induction false} FoundOnce(n: Normal, discovered: Profile, targets: seq<Candidate>)
    requires DistinctIds(targets)
    ensures forall m :: multiset(Found(n, discovered, targets))[m] <= 1
  {
    hide Score, Conflict, Clues, ConfidenceOf;
    if targets != [] {
      var init, last := targets[..|targets| - 1], targets[|targets| - 1];
      FoundOnce(n, discovered, init);
      FoundMeaning(n, discovered, init);
      var m := MatchOf(n, discovered, last);
      assert last !in init;
      assert m !in Found(n, discovered, init);
    }
  }

  lemma FirstIsBest(ms: seq<Match>, m: Match)
    requires ByScore(ms) && m in ms && ms[0] != m
    ensures m.score <= ms[0].score && (|ms| > 1 ==> m.score <= ms[1].score) && |ms| > 1
  {
    var k :| 0 <= k < |ms| && ms[k] == m;
  }

  /** A suggestion is made if and only if some target wins, and it is that target. */
  lemma SuggestionIsWinner(n: Normal, discovered: Profile, targets: seq<Candidate>, c: Candidate)
    requires DistinctIds(targets)
    ensures Suggested(MatchTargets(n, discovered, targets)) == Some(c) <==> Winner(n, discovered, targets, c)
  {
    hide Score, Conflict, Clues, Place, Arrange;
    var found := Found(n, discovered, targets);
    var ms := MatchTargets(n, discovered, targets);
    ArrangeByScore(n, found);
    FoundMeaning(n, discovered, targets);
    FoundOnce(n, discovered, targets);
    SameMembers(ms, found);
    if Suggested(ms) == Some(c) {
      SuggestedWins(n, discovered, targets, ms);
    }
    if Winner(n, discovered, targets, c) {
      WinnerIsSuggested(n, discovered, targets, ms, c);
    }
  }

  lemma SameMembers(a: seq<Match>, b: seq<Match>)
    requires multiset(a) == multiset(b)
    ensures forall m :: m in a <==> m in b
    ensures (forall m :: multiset(b)[m] <= 1) ==> forall k, l :: 0 <= k < l < |a| ==> a[k] != a[l]
  {
    assert forall m :: m in a <==> m in multiset(a);
    assert forall m :: m in b <==> m in multiset(b);
    if forall m :: multiset(b)[m] <= 1 {
      forall k, l | 0 <= k < l < |a|
        ensures a[k] != a[l]
      {
        assert a == a[..l] + a[l..];
        assert a[..l][k] in multiset(a[..l]) && a[l..][0] in multiset(a[l..]);
        assert multiset(a)[a[k]] == multiset(a[..l])[a[k]] + multiset(a[l..])[a[k]];
      }
    }
  }

  /** The matches, whatever their order. */
  ghost predicate Listed(n: Normal, discovered: Profile, targets: seq<Candidate>, ms: seq<Match>)
  {
    && ByScore(ms) && (forall k, l :: 0 <= k < l < |ms| ==> ms[k] != ms[l])
    && forall m :: m in ms <==>
      m.target in targets && m == MatchOf(n, discovered, m.target) && Score(n, discovered, m.target.profile) > 0
  }

  lemma SuggestedWins(n: Normal, discovered: Profile, targets: seq<Candidate>, ms: seq<Match>)
    requires Listed(n, discovered, targets, ms) && Suggested(ms).Some?
    ensures Winner(n, discovered, targets, Suggested(ms).value)
  {
    hide Score, Conflict, Clues;
    var c := Suggested(ms).value;
    assert ms[0] in ms;
    forall d | d in targets && d != c
      ensures Score(n, discovered, d.profile) < Score(n, discovered, c.profile)
    {
      var m := MatchOf(n, discovered, d);
      if Score(n, discovered, d.profile) > 0 {
        assert m in ms;
        FirstIsBest(ms, m);
      }
    }
  }

  lemma WinnerIsSuggested(n: Normal, discovered: Profile, targets: seq<Candidate>, ms: seq<Match>, c: Candidate)
    requires Listed(n, discovered, targets, ms) && Winner(n, discovered, targets, c)
    ensures Suggested(ms) == Some(c)
  {
    hide Score, Conflict, Clues;
    var m := MatchOf(n, discovered, c);
    assert m in ms;
    assert ms[0] in ms;
    if ms[0] != m {
      FirstIsBest(ms, m);
    }
    if |ms| > 1 {
      assert ms[1] in ms && ms[1] != ms[0];
    }
  }

  /** The suggestion does not depend on the order in which targets are listed. */
  lemma SuggestionIgnoresOrder(n: Normal, discovered: Profile, targets: seq<Candidate>, targets2: seq<Candidate>)
    requires DistinctIds(targets) && DistinctIds(targets2) && (forall c :: c in targets <==> c in targets2)
    ensures Suggested(MatchTargets(n, discovered, targets)) == Suggested(MatchTargets(n, discovered, targets2))
  {
    var a, b := Suggested(MatchTargets(n, discovered, targets)), Suggested(MatchTargets(n, discovered, targets2));
    if a.Some? {
      SuggestionIsWinner(n, discovered, targets, a.value);
      SuggestionIsWinner(n, discovered, targets2, a.value);
    }
    if b.Some? {
      SuggestionIsWinner(n, discovered, targets, b.value);
      SuggestionIsWinner(n, discovered, targets2, b.value);
    }
  }

  // ----- The matcher at work -----

  method NormalizedSet(values: seq<string>, normalize: string -> string) returns (r: set<string>)
    ensures r == Normalized(values, normalize)
  {
    r := {};
    for k := 0 to |values|
      invariant r == Normalized(values[..k], normalize)
    {
      var key := normalize(values[k]);
      NormalizedSnoc(values[..k], values[k], normalize);
      assert values[..k + 1] == values[..k] + [values[k]];
      if key != "" {
        r := r + {key};
      }
    }
    assert values[..|values|] == values;
  }

  lemma NormalizedSnoc(values: seq<string>, v: string, normalize: string -> string)
    ensures Normalized(values + [v], normalize) == Normalized(values, normalize) + if normalize(v) == "" then {} else {normalize(v)}
  {
    var longer := values + [v];
    forall x | x in Normalized(longer, normalize)
      ensures x in Normalized(values, normalize) || (x == normalize(v) && x != "")
    {
      var k :| 0 <= k < |longer| && normalize(longer[k]) != "" && normalize(longer[k]) == x;
      assert k < |values| ==> values[k] == longer[k];
    }
    forall x | x in Normalized(values, normalize)
      ensures x in Normalized(longer, normalize)
    {
      var k :| 0 <= k < |values| && normalize(values[k]) != "" && normalize(values[k]) == x;
      assert longer[k] == values[k];
    }
    assert longer[|values|] == v;
  }

  /** Distinct fingerprints with a core, in the order of the names. */
  method Fingerprints(n: Normal, names: seq<string>) returns (r: seq<Fingerprint>)
    ensures (set f | f in r) == FingerprintsOf(n, names)
    ensures forall k, l :: 0 <= k < l < |r| ==> r[k] != r[l]
  {
    hide FingerprintOf, FingerprintsOf;
    NoFingerprints(n);
    r := [];
    for k := 0 to |names|
      invariant (set f | f in r) == FingerprintsOf(n, names[..k])
      invariant forall i, j :: 0 <= i < j < |r| ==> r[i] != r[j]
    {
      var f := FingerprintOf(n, names[k]);
      FingerprintsSnoc(n, names[..k], names[k]);
      assert names[..k + 1] == names[..k] + [names[k]];
      if f.core != "" && f !in r {
        assert (set x | x in r + [f]) == (set x | x in r) + {f};
        r := r + [f];
      }
    }
    assert names[..|names|] == names;
  }

  lemma NoFingerprints(n: Normal)
    ensures FingerprintsOf(n, []) == {}
  {
  }

  lemma FingerprintsSnoc(n: Normal, names: seq<string>, v: string)
    ensures FingerprintsOf(n, names + [v]) ==
      FingerprintsOf(n, names) + if FingerprintOf(n, v).core == "" then {} else {FingerprintOf(n, v)}
  {
    hide FingerprintOf;
    var longer := names + [v];
    forall x | x in FingerprintsOf(n, longer)
      ensures x in FingerprintsOf(n, names) || (x == FingerprintOf(n, v) && x.core != "")
    {
      var k :| 0 <= k < |longer| && FingerprintOf(n, longer[k]).core != "" && FingerprintOf(n, longer[k]) == x;
      assert k < |names| ==> names[k] == longer[k];
    }
    forall x | x in FingerprintsOf(n, names)
      ensures x in FingerprintsOf(n, longer)
    {
      var k :| 0 <= k < |names| && FingerprintOf(n, names[k]).core != "" && FingerprintOf(n, names[k]) == x;
      assert longer[k] == names[k];
    }
    assert longer[|names|] == v;
  }

  function Members(fs: seq<Fingerprint>): set<Fingerprint>
  {
    set f | f in fs
  }

  method AliasCores(left: seq<Fingerprint>, right: seq<Fingerprint>) returns (r: set<string>)
    ensures r == MatchingAliases(Members(left), Members(right))
  {
    r := {};
    for i := 0 to |left|
      invariant r == MatchingAliases(Members(left[..i]), Members(right))
    {
      assert Members(left[..i + 1]) == Members(left[..i]) + {left[i]};
      for j := 0 to |right|
        invariant r == MatchingAliases(Members(left[..i]), Members(right)) + MatchingAliases({left[i]}, Members(right[..j]))
      {
        assert Members(right[..j + 1]) == Members(right[..j]) + {right[j]};
        if Aliases(left[i], right[j]) {
          r := r + {left[i].core};
        }
      }
      assert right[..|right|] == right;
    }
    assert left[..|left|] == left;
  }

  /** The index of an identity: one key for each way it can be recognised. */
  method IdentityCandidateKeys(n: Normal, p: Profile) returns (keys: set<Key>)
    ensures keys == CandidateKeys(n, p)
  {
    var names := NormalizedSet(p.names, n.name);
    var addresses := NormalizedSet(p.addresses, n.address);
    var identifiers := NormalizedSet(p.identifiers, n.identifier);
    var fingerprints := Fingerprints(n, p.names);
    keys := (set v | v in names :: NameKey(v)) + (set v | v in addresses :: AddressKey(v)) +
      (set v | v in identifiers :: IdentifierKey(v));
    var init := keys;
    for k := 0 to |fingerprints|
      invariant keys == init + set f | f in fingerprints[..k] :: AliasKey(f.core)
    {
      assert fingerprints[..k + 1] == fingerprints[..k] + [fingerprints[k]];
      keys := keys + {AliasKey(fingerprints[k].core)};
    }
    assert fingerprints[..|fingerprints|] == fingerprints;
  }

  lemma StrongestAdd(kinds: set<Kind>, k: Kind)
    ensures Strongest(kinds + {k}) == if Strongest(kinds) < Worth(k) then Worth(k) else Strongest(kinds)
  {
  }

  /** Adds clues one by one, keeping the running score. */
  method Gather(values: set<string>, kindOf: string -> Kind, clues: set<Clue>,
      score: nat) returns (clues2: set<Clue>, score2: nat)
    requires score == Strongest(Kinds(clues))
    ensures clues2 == clues + set v | v in values :: Clue(kindOf(v), v)
    ensures score2 == Strongest(Kinds(clues2))
  {
    var todo := values;
    clues2, score2 := clues, score;
    while todo != {}
      invariant todo <= values && clues2 == clues + set v | v in values - todo :: Clue(kindOf(v), v)
      invariant score2 == Strongest(Kinds(clues2))
      decreases |todo|
    {
      var v :| v in todo;
      var clue := Clue(kindOf(v), v);
      StrongestAdd(Kinds(clues2), clue.kind);
      assert Kinds(clues2 + {clue}) == Kinds(clues2) + {clue.kind};
      assert values - (todo - {v}) == (values - todo) + {v};
      clues2, todo := clues2 + {clue}, todo - {v};
      if score2 < Worth(clue.kind) {
        score2 := Worth(clue.kind);
      }
    }
    assert values - {} == values;
  }

  method SharedAliasCores(n: Normal, a: Profile, b: Profile) returns (r: set<string>)
    ensures r == SharedAliases(n, a, b)
  {
    var left := Fingerprints(n, a.names);
    var right := Fingerprints(n, b.names);
    r := AliasCores(left, right);
  }

  method GatherAll(n: Normal, a: Profile, b: Profile, ids: set<string>, names: set<string>, addresses: set<string>,
      aliases: set<string>)
    returns (clues: set<Clue>, score: nat)
    requires ids == SharedIdentifiers(n, a, b) && names == SharedNames(n, a, b)
    requires addresses == SharedAddresses(n, a, b) && aliases == SharedAliases(n, a, b)
    ensures clues == Clues(n, a, b) && score == Strongest(Kinds(clues))
  {
    hide SharedIdentifiers, SharedNames, SharedAddresses, SharedAliases, Strongest, Kinds;
    NoClue();
    clues, score := Gather(ids, v => SameMachineId, {}, 0);
    clues, score := Gather(names, v => SameName, clues, score);
    clues, score := Gather(addresses, v => AddressKind(n, v), clues, score);
    clues, score := Gather(aliases, v => SimilarName, clues, score);
  }

  /** Compares two identities; no clue, no match. */
  method Compare(n: Normal, discovered: Profile, c: Candidate) returns (m: Option<Match>)
    ensures m == if Score(n, discovered, c.profile) == 0 then None else Some(MatchOf(n, discovered, c))
  {
    hide Strongest, SharedAliases, Normalized, Clues, Kinds;
    var ids := NormalizedSet(discovered.identifiers, n.identifier);
    var candidateIds := NormalizedSet(c.profile.identifiers, n.identifier);
    var names := NormalizedSet(discovered.names, n.name);
    var candidateNames := NormalizedSet(c.profile.names, n.name);
    var addresses := NormalizedSet(discovered.addresses, n.address);
    var candidateAddresses := NormalizedSet(c.profile.addresses, n.address);
    var aliases := SharedAliasCores(n, discovered, c.profile);
    var conflict := ids != {} && candidateIds != {} && ids * candidateIds == {};
    var clues, score := GatherAll(n, discovered, c.profile, ids * candidateIds, names * candidateNames,
                                  addresses * candidateAddresses, aliases);
    var kinds := Kinds(clues);
    StrongestIsGreatest(kinds);
    if score == 0 {
      return None;
    }
    var total: nat := score + (|kinds| - 1) * 5;
    return Some(Match(c, ConfidenceOf(total, conflict), clues, conflict, total));
  }

  lemma NoClue()
    ensures Strongest(Kinds({})) == 0
  {
  }

  method FindMatches(n: Normal, discovered: Profile, targets: seq<Candidate>) returns (ms: seq<Match>)
    ensures ms == MatchTargets(n, discovered, targets)
  {
    hide Score, MatchOf;
    ms := [];
    for k := 0 to |targets|
      invariant ms == Found(n, discovered, targets[..k])
    {
      FoundSnoc(n, discovered, targets[..k], targets[k]);
      assert targets[..k + 1] == targets[..k] + [targets[k]];
      var m := Compare(n, discovered, targets[k]);
      if m.Some? {
        ms := ms + [m.value];
      }
    }
    assert targets[..|targets|] == targets;
    ms := Arrange(n, ms);
  }
}
