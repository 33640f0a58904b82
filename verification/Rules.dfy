/** Compiling an offering's jurisdiction matrix into category rules, and evaluating them. */
module Rules {
  import opened Prelude
  import opened Text

  predicate Letter(c: char) {
    'A' <= c <= 'Z'
  }

  const HN_PRO := "HN-PRO"

  /** A residence code: two letters, or the one special code; empty when it is neither. */
  function Normalize(s: string): (r: string)
    ensures r == "" || r == HN_PRO || (|r| == 2 && Letter(r[0]) && Letter(r[1]))
    ensures r != "" ==> r == Upper(Trim(s))
    ensures forall i :: 0 <= i < |r| ==> r[i] != ':'
  {
    var u := Upper(Trim(s));
    if u == HN_PRO then u
    else if |u| == 2 && Letter(u[0]) && Letter(u[1]) then u
    else ""
  }

  /** A two-letter code is read whatever its case and whatever space is around it, and so is the
      one special code. */
  lemma NormalizeReads(before: string, s: string, after: string)
    requires (forall i :: 0 <= i < |before| ==> Space(before[i])) && (forall i :: 0 <= i < |after| ==> Space(after[i]))
    requires Upper(s) == HN_PRO || (|s| == 2 && Letter(UpperChar(s[0])) && Letter(UpperChar(s[1])))
    ensures Normalize(before + s + after) == Upper(s)
  {
    assert |s| == |Upper(s)| && Upper(s)[0] == UpperChar(s[0]) && Upper(s)[|s| - 1] == UpperChar(s[|s| - 1]);
    TrimStrips(before, s, after);
  }

  // ---- tokens ----

  function Token(code: string, elig: string): string {
    "j:" + code + ":" + elig
  }

  /** The first colon from i on, or the end. */
  function Colon(s: string, i: nat): (j: nat)
    requires i <= |s|
    ensures i <= j <= |s|
    ensures j < |s| ==> s[j] == ':'
    ensures forall k :: i <= k < j ==> s[k] != ':'
    decreases |s| - i
  {
    if i == |s| || s[i] == ':' then i else Colon(s, i + 1)
  }

  /** The three parts of a string with exactly two colons. */
  function Parts(s: string): Option<(string, string, string)> {
    var a := Colon(s, 0);
    if a == |s| then None
    else
      var b := Colon(s, a + 1);
      if b == |s| then None
      else if Colon(s, b + 1) < |s| then None
      else Some((s[..a], s[a + 1..b], s[b + 1..]))
  }

  predicate ColonFree(s: string) {
    forall i :: 0 <= i < |s| ==> s[i] != ':'
  }

  lemma TokenParts(code: string, elig: string)
    requires ColonFree(code) && ColonFree(elig)
    ensures Parts(Token(code, elig)) == Some(("j", code, elig))
  {
    var s := Token(code, elig);
    assert s[1] == ':' && s[0] == 'j';
    assert Colon(s, 0) == 1;
    var n := 2 + |code|;
    assert s[n] == ':' && s[2..n] == code && s[n + 1..] == elig;
    assert forall k :: 2 <= k < n ==> s[k] == code[k - 2];
    assert Colon(s, 2) == n;
    assert forall k :: n + 1 <= k < |s| ==> s[k] == elig[k - n - 1];
    assert Colon(s, n + 1) == |s|;
    assert s[..1] == "j";
  }

  // ---- the matrix ----

  datatype Term = Term(access: string, elig: seq<string>)

  type Matrix = map<string, Term>

  const FLOOR: set<string> := {"AF", "BY", "CU", "IR", "KP", "MM", "RU", "SY", "VE"}

  const EU_STATES: set<string> :=
    {"AT", "BE", "BG", "HR", "CY", "CZ", "DK", "EE", "FI", "FR", "DE", "GR", "HU", "IE", "IT", "LV", "LT", "LU",
     "MT", "NL", "PL", "PT", "RO", "SK", "SI", "ES", "SE"}

  const STANDARD: set<string> := {"ret", "acc", "pro", "hnw", "soph"}
  const RESTRICTED: set<string> := {"acc", "pro"}
  const STANDARD_DEFAULT: seq<string> := ["ret", "acc", "pro"]
  const RESTRICTED_DEFAULT: seq<string> := ["acc", "pro"]

  /** The tiers an access level admits; none for a level that is not known. */
  function Admits(access: string): set<string> {
    var a := Lower(Trim(access));
    if a == "standard" then STANDARD else if a == "restricted" then RESTRICTED else {}
  }

  function Selection(t: Term): seq<string> {
    if t.elig != [] then t.elig
    else if Lower(t.access) == "restricted" then RESTRICTED_DEFAULT
    else STANDARD_DEFAULT
  }

  function Tier(e: string): string {
    Lower(Trim(e))
  }

  /** A row of the matrix lets a category in: its access admits a tier it selects. */
  ghost predicate RowAdmits(iso2: string, t: Term, c: string) {
    exists k :: 0 <= k < |Selection(t)| && TierAdmits(iso2, t, k, c)
  }

  predicate TierAdmits(iso2: string, t: Term, k: nat, c: string) {
    && k < |Selection(t)| && Normalize(iso2) != ""
    && Tier(Selection(t)[k]) in Admits(t.access)
    && c == Token(Normalize(iso2), Tier(Selection(t)[k]))
  }

  /** Read off the matrix directly: some row outside the sanctions floor admits the category. */
  ghost predicate MatrixAdmits(m: Matrix, c: string) {
    exists iso2 :: iso2 in m && Normalize(iso2) !in FLOOR && RowAdmits(iso2, m[iso2], c)
  }

  /** A fund's clamp: within the union's member states only professionals. */
  predicate Clamped(aif: bool, c: string) {
    aif && Parts(c).Some? && Parts(c).value.0 == "j" && Parts(c).value.1 in EU_STATES && Parts(c).value.2 != "pro"
  }

  // ---- compiling ----

  /** One row's tokens. */
  method CompileRow(iso2: string, t: Term) returns (tokens: set<string>)
    ensures forall c :: c in tokens <==> Normalize(iso2) !in FLOOR && RowAdmits(iso2, t, c)
  {
    tokens := {};
    var code := Normalize(iso2);
    if code == "" || code in FLOOR {
      return;
    }
    var admits, selection := Admits(t.access), Selection(t);
    for k := 0 to |selection|
      invariant forall c :: c in tokens <==> exists j :: 0 <= j < k && TierAdmits(iso2, t, j, c)
    {
      var e := Tier(selection[k]);
      if e in admits {
        tokens := tokens + {Token(code, e)};
        assert TierAdmits(iso2, t, k, Token(code, e));
      }
    }
  }

  /** Takes out what the clamp takes out. */
  method Clamp(allowed: set<string>, aif: bool) returns (kept: set<string>)
    ensures forall c :: c in kept <==> c in allowed && !Clamped(aif, c)
  {
    kept := allowed;
    if !aif {
      return;
    }
    var todo := allowed;
    while todo != {}
      invariant todo <= allowed
      invariant forall c :: c in kept <==> c in allowed && (c in todo || !Clamped(aif, c))
      decreases |todo|
    {
      var c :| c in todo;
      todo := todo - {c};
      var parts := Parts(c);
      if parts.Some? && parts.value.0 == "j" && parts.value.1 in EU_STATES && parts.value.2 != "pro" {
        kept := kept - {c};
      }
    }
  }

  /** The allowed categories, whatever order the rows are taken in. */
  method CompileRules(m: Matrix, aif: bool) returns (allowed: set<string>)
    ensures forall c :: c in allowed <==> MatrixAdmits(m, c) && !Clamped(aif, c)
  {
    var union: set<string> := {};
    var todo := m.Keys;
    while todo != {}
      invariant todo <= m.Keys
      invariant forall c :: c in union <==>
                  exists iso2 :: iso2 in m && iso2 !in todo && Normalize(iso2) !in FLOOR && RowAdmits(iso2, m[iso2], c)
      decreases |todo|
    {
      hide Normalize, RowAdmits;
      var iso2 :| iso2 in todo;
      var tokens := CompileRow(iso2, m[iso2]);
      todo := todo - {iso2};
      union := union + tokens;
    }
    allowed := Clamp(union, aif);
  }

  // ---- the offshore window ----

  datatype RegS = RegS(prefix: string, untilHeight: int, days: int)

  datatype Deny = Deny(prefix: string, until: int)

  /** The one deny an offshore period makes, for the United States unless it names another
      prefix, if it ends at a height at all. */
  method CompileDeny(reg: Option<RegS>, tip: int, blocksPerDay: int) returns (denies: seq<Deny>)
    ensures denies != [] <==>
            && reg.Some?
            && (reg.value.untilHeight > 0
                || (reg.value.untilHeight == 0 && reg.value.days > 0 && blocksPerDay > 0
                    && tip + reg.value.days * blocksPerDay > 0))
    ensures denies != [] ==>
              && |denies| == 1
              && denies[0].until == (if reg.value.untilHeight > 0 then reg.value.untilHeight
                   else tip + reg.value.days * blocksPerDay)
              && denies[0].prefix == if Trim(reg.value.prefix) == "" then "j:US" else Trim(reg.value.prefix)
  {
    denies := [];
    if reg.Some? {
      var prefix := Trim(reg.value.prefix);
      if prefix == "" {
        prefix := "j:US";
      }
      var until := reg.value.untilHeight;
      if until == 0 && reg.value.days > 0 && blocksPerDay > 0 {
        until := tip + reg.value.days * blocksPerDay;
      }
      if until > 0 {
        denies := [Deny(prefix, until)];
      }
    }
  }

  // ---- evaluating ----

  predicate Denied(denies: seq<Deny>, cats: seq<string>, height: int, i: nat, j: nat) {
    i < |denies| && j < |cats| && height < denies[i].until && denies[i].prefix <= cats[j]
  }

  /** No category of the holder is under a deny still in force. */
  ghost predicate NothingDenied(denies: seq<Deny>, cats: seq<string>, height: int) {
    forall i, j :: !Denied(denies, cats, height, i, j)
  }

  /** A deny is in force below its height, against every category it is a prefix of. */
  lemma NothingDeniedIff(denies: seq<Deny>, cats: seq<string>, height: int)
    ensures NothingDenied(denies, cats, height) <==>
            forall i, j :: 0 <= i < |denies| && 0 <= j < |cats| && denies[i].prefix <= cats[j] ==> denies[i].until <= height
  {
    if NothingDenied(denies, cats, height) {
      forall i, j | 0 <= i < |denies| && 0 <= j < |cats| && denies[i].prefix <= cats[j] ensures denies[i].until <= height {
        assert !Denied(denies, cats, height, i, j);
      }
    }
  }

  method AnyIn(have: seq<string>, want: set<string>) returns (any: bool)
    ensures any <==> exists j :: 0 <= j < |have| && have[j] in want
  {
    for j := 0 to |have|
      invariant forall i :: 0 <= i < j ==> have[i] !in want
    {
      if have[j] in want {
        return true;
      }
    }
    return false;
  }

  /** Counts the reasons a holder may not hold; none means eligible. */
  method EvalEligibility(cats: seq<string>, frozen: bool, allowed: set<string>, denies: seq<Deny>, height: int)
    returns (eligible: bool, reasons: nat)
    ensures eligible <==> reasons == 0
    ensures eligible <==>
            && !frozen
            && (allowed == {} || exists j :: 0 <= j < |cats| && cats[j] in allowed)
            && NothingDenied(denies, cats, height)
  {
    reasons := if frozen then 1 else 0;
    var any := AnyIn(cats, allowed);
    if allowed != {} && !any {
      reasons := reasons + 1;
    }
    var before := reasons;
    for i := 0 to |denies|
      invariant before <= reasons
      invariant reasons == before <==> forall k, j :: 0 <= k < i ==> !Denied(denies, cats, height, k, j)
    {
      if height >= denies[i].until {
        continue;
      }
      for j := 0 to |cats|
        invariant before <= reasons
        invariant reasons == before <==>
                    && (forall k, n :: 0 <= k < i ==> !Denied(denies, cats, height, k, n))
                    && (forall n :: 0 <= n < j ==> !Denied(denies, cats, height, i, n))
      {
        if denies[i].prefix <= cats[j] {
          assert Denied(denies, cats, height, i, j);
          reasons := reasons + 1;
        }
      }
    }
    eligible := reasons == 0;
  }

  /** Compiling and then evaluating means what the matrix says: with any category allowed at
      all, an unfrozen holder is eligible exactly when one of its categories is admitted by a
      row outside the floor and not clamped, and none is denied. */
  method CompileThenEval(m: Matrix, aif: bool, denies: seq<Deny>, cats: seq<string>, frozen: bool,
                         height: int)
    returns (eligible: bool, allowed: set<string>)
    ensures forall c :: c in allowed <==> MatrixAdmits(m, c) && !Clamped(aif, c)
    ensures allowed != {} ==>
              (eligible <==>
                && !frozen
                && (exists j :: 0 <= j < |cats| && MatrixAdmits(m, cats[j]) && !Clamped(aif, cats[j]))
                && NothingDenied(denies, cats, height))
    ensures allowed == {} ==> (eligible <==> !frozen && NothingDenied(denies, cats, height))
  {
    hide MatrixAdmits, Clamped, NothingDenied;
    allowed := CompileRules(m, aif);
    var reasons;
    eligible, reasons := EvalEligibility(cats, frozen, allowed, denies, height);
  }

  // ---- what the rules come to ----

  /** A row's access level, trimmed and in lower case. */
  predicate AccessIs(t: Term, level: string) {
    Lower(Trim(t.access)) == level
  }

  /** The tiers a row asks for: its own list, or what its access level comes with. */
  predicate AsksFor(t: Term, tier: string) {
    if t.elig != [] then exists k :: 0 <= k < |t.elig| && Lower(Trim(t.elig[k])) == tier
    else tier in ["acc", "pro"] || (tier == "ret" && Lower(t.access) != "restricted")
  }

  /** A standard row admits retail investors too, a restricted one only accredited and professional
      ones, any other nobody; and of these only the tiers it asks for. */
  lemma RowAdmitsIff(iso2: string, t: Term, c: string)
    ensures RowAdmits(iso2, t, c) <==>
            Normalize(iso2) != "" && exists tier ::
              && tier in ["ret", "acc", "pro", "hnw", "soph"]
              && c == "j:" + Normalize(iso2) + ":" + tier && AsksFor(t, tier)
              && (AccessIs(t, "standard") || (AccessIs(t, "restricted") && tier in ["acc", "pro"]))
  {
    hide Normalize, Lower, Trim;
    DefaultTiers(t);
    if RowAdmits(iso2, t, c) {
      var k :| 0 <= k < |Selection(t)| && TierAdmits(iso2, t, k, c);
      var tier := Tier(Selection(t)[k]);
      assert AsksFor(t, tier);
      assert tier in ["ret", "acc", "pro", "hnw", "soph"];
    }
    if tier :| Normalize(iso2) != "" && tier in ["ret", "acc", "pro", "hnw", "soph"]
               && c == "j:" + Normalize(iso2) + ":" + tier && AsksFor(t, tier)
               && (AccessIs(t, "standard") || (AccessIs(t, "restricted") && tier in ["acc", "pro"]))
    {
      var k :| 0 <= k < |Selection(t)| && Tier(Selection(t)[k]) == tier;
      assert TierAdmits(iso2, t, k, c);
    }
  }

  lemma DefaultTiers(t: Term)
    ensures Lower(Trim("ret")) == "ret" && Lower(Trim("acc")) == "acc" && Lower(Trim("pro")) == "pro"
    ensures forall tier :: AsksFor(t, tier) <==> exists k :: 0 <= k < |Selection(t)| && Tier(Selection(t)[k]) == tier
  {
    assert Lower("ret") == "ret" && Lower("acc") == "acc" && Lower("pro") == "pro";
    assert Trim("ret") == "ret" && Trim("acc") == "acc" && Trim("pro") == "pro";
    var sel := Selection(t);
    hide Lower, Trim;
    if t.elig == [] {
      assert Tier("ret") == "ret" && Tier("acc") == "acc" && Tier("pro") == "pro";
      forall tier | AsksFor(t, tier) ensures exists k :: 0 <= k < |sel| && Tier(sel[k]) == tier {
        if tier == "ret" { assert Tier(sel[0]) == tier; }
        else if Lower(t.access) == "restricted" {
          assert sel == ["acc", "pro"] && Tier(sel[if tier == "acc" then 0 else 1]) == tier;
        }
        else { assert sel == ["ret", "acc", "pro"] && Tier(sel[if tier == "acc" then 1 else 2]) == tier; }
      }
    }
  }

  /** The clamp takes the non-professional categories of the 27 member states, for a fund only. */
  lemma ClampedIff(aif: bool, code: string, tier: string)
    requires ColonFree(code) && ColonFree(tier)
    ensures Clamped(aif, "j:" + code + ":" + tier) <==>
            aif && tier != "pro"
            && code in ["AT", "BE", "BG", "HR", "CY", "CZ", "DK", "EE", "FI", "FR", "DE", "GR", "HU", "IE", "IT",
                        "LV", "LT", "LU", "MT", "NL", "PL", "PT", "RO", "SK", "SI", "ES", "SE"]
  {
    TokenParts(code, tier);
  }

  /** Read off the matrix: some row outside the nine sanctioned jurisdictions admits the category. */
  lemma MatrixAdmitsIff(m: Matrix, c: string)
    ensures MatrixAdmits(m, c) <==>
            exists iso2 ::
              && iso2 in m && Normalize(iso2) !in ["AF", "BY", "CU", "IR", "KP", "MM", "RU", "SY", "VE"]
              && RowAdmits(iso2, m[iso2], c)
  {
    hide Normalize, RowAdmits;
  }

  /** No category of a sanctioned jurisdiction is ever allowed. */
  lemma FloorIsOut(m: Matrix, code: string, tier: string)
    requires code in ["AF", "BY", "CU", "IR", "KP", "MM", "RU", "SY", "VE"] && ColonFree(tier)
    ensures !MatrixAdmits(m, "j:" + code + ":" + tier)
  {
    FloorCode(code);
    hide Normalize, Parts;
    var c := Token(code, tier);
    if MatrixAdmits(m, c) {
      var iso2 :| iso2 in m && Normalize(iso2) !in FLOOR && RowAdmits(iso2, m[iso2], c);
      var k :| 0 <= k < |Selection(m[iso2])| && TierAdmits(iso2, m[iso2], k, c);
      TiersColonFree(Tier(Selection(m[iso2])[k]));
      SameToken(Normalize(iso2), Tier(Selection(m[iso2])[k]), code, tier);
    }
  }

  lemma FloorCode(code: string)
    requires code in ["AF", "BY", "CU", "IR", "KP", "MM", "RU", "SY", "VE"]
    ensures code in FLOOR && ColonFree(code)
  {
  }

  lemma SameToken(code: string, tier: string, code': string, tier': string)
    requires ColonFree(code) && ColonFree(tier) && ColonFree(code') && ColonFree(tier')
    requires Token(code, tier) == Token(code', tier')
    ensures code == code' && tier == tier'
  {
    TokenParts(code, tier);
    TokenParts(code', tier');
  }

  /** The clamp, on the tokens a matrix makes: within the member states, professionals only. */
  lemma ClampIs(m: Matrix, c: string)
    requires MatrixAdmits(m, c)
    ensures exists code, tier :: c == Token(code, tier) && code !in FLOOR
              && (Clamped(true, c) <==> code in EU_STATES && tier != "pro")
  {
    var iso2 :| iso2 in m && Normalize(iso2) !in FLOOR && RowAdmits(iso2, m[iso2], c);
    var k :| 0 <= k < |Selection(m[iso2])| && TierAdmits(iso2, m[iso2], k, c);
    var code, tier := Normalize(iso2), Tier(Selection(m[iso2])[k]);
    assert tier in STANDARD;
    TiersColonFree(tier);
    TokenParts(code, tier);
    assert c == Token(code, tier);
  }

  lemma TiersColonFree(tier: string)
    requires tier in STANDARD
    ensures ColonFree(tier)
  {
  }

  /** A row of the floor the deploy refuses: one whose access admits any tier. */
  ghost predicate FloorRow(iso2: string, t: Term) {
    Normalize(iso2) != "" && Normalize(iso2) in FLOOR && Admits(t.access) != {}
  }

  lemma FloorRowIff(iso2: string, t: Term)
    ensures FloorRow(iso2, t) <==>
            && Normalize(iso2) in ["AF", "BY", "CU", "IR", "KP", "MM", "RU", "SY", "VE"]
            && (AccessIs(t, "standard") || AccessIs(t, "restricted"))
  {
    hide Normalize, Lower, Trim;
    assert "ret" in STANDARD && "acc" in RESTRICTED;
  }

  /** The floor jurisdictions a matrix tries to admit. */
  method AdmittedFloor(m: Matrix) returns (codes: set<string>)
    ensures forall code :: code in codes <==> exists iso2 :: iso2 in m && FloorRow(iso2, m[iso2]) && code == Normalize(iso2)
  {
    codes := {};
    var todo := m.Keys;
    while todo != {}
      invariant todo <= m.Keys
      invariant forall code :: code in codes <==>
                  exists iso2 :: iso2 in m && iso2 !in todo && FloorRow(iso2, m[iso2]) && code == Normalize(iso2)
      decreases |todo|
    {
      var iso2 :| iso2 in todo;
      todo := todo - {iso2};
      var code := Normalize(iso2);
      if code == "" || code !in FLOOR {
        continue;
      }
      if Admits(m[iso2].access) != {} {
        codes := codes + {code};
        assert FloorRow(iso2, m[iso2]);
      }
    }
  }

  /** Once the deploy's gate finds none, leaving the floor out removes nothing. */
  lemma GateMakesTheSkipIdle(m: Matrix, c: string)
    requires forall iso2 :: iso2 in m ==> !FloorRow(iso2, m[iso2])
    ensures MatrixAdmits(m, c) <==> exists iso2 :: iso2 in m && RowAdmits(iso2, m[iso2], c)
  {
    if exists iso2 :: iso2 in m && RowAdmits(iso2, m[iso2], c) {
      var iso2 :| iso2 in m && RowAdmits(iso2, m[iso2], c);
      var k :| 0 <= k < |Selection(m[iso2])| && TierAdmits(iso2, m[iso2], k, c);
      assert !FloorRow(iso2, m[iso2]);
    }
  }

  /** An empty list of categories limits nobody: a matrix that excludes everyone is read as
      one that says nothing. */
  lemma ExcludingEveryoneAllowsNothing(m: Matrix, c: string)
    requires forall iso2 :: iso2 in m ==> Admits(m[iso2].access) == {}
    ensures !MatrixAdmits(m, c)
  {
    forall iso2 | iso2 in m ensures !RowAdmits(iso2, m[iso2], c) {
    }
  }
}
