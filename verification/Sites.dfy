/** Which application owns which domain name, and what applying a manifest's domain list does to that.

    Identifiers left aside, the domain registry is a table from names to owner and TLS flag; `Applied` is
    the effect of one apply on it. */
module Sites {
  import opened Ids

  // ----- names

  /** `unicode.IsSpace` on the characters below U+0100. */
  predicate IsSpace(c: char) {
    c == ' ' || ('\t' <= c <= '\r') || c == 0x85 as char || c == 0xA0 as char
  }

  lemma SpacesAre(c: char)
    ensures IsSpace(c) <==> c as int in {9, 10, 11, 12, 13, 32, 133, 160}
  {
  }

  function TrimLeft(s: string): string {
    if s != "" && IsSpace(s[0]) then TrimLeft(s[1..]) else s
  }

  function TrimRight(s: string): string {
    if s != "" && IsSpace(s[|s| - 1]) then TrimRight(s[..|s| - 1]) else s
  }

  function Lower(s: string): string {
    seq(|s|, i requires 0 <= i < |s| => if 'A' <= s[i] <= 'Z' then s[i] - 'A' + 'a' else s[i])
  }

  function TrimDot(s: string): string {
    if s != "" && s[|s| - 1] == '.' then s[..|s| - 1] else s
  }

  function NormalizeDomain(name: string): string {
    TrimDot(Lower(TrimRight(TrimLeft(name))))
  }

  /** One character, folded to lower case as far as ASCII goes. */
  predicate IsFolded(a: char, b: char) {
    if 'A' <= a <= 'Z' then b as int == a as int + 32 else b == a
  }

  /** `core` is the name without its outer spaces. */
  ghost predicate IsCore(name: string, core: string, i: nat) {
    && i + |core| <= |name| && core == name[i..i + |core|]
    && (forall k :: 0 <= k < i ==> IsSpace(name[k])) && (forall k :: i + |core| <= k < |name| ==> IsSpace(name[k]))
    && (core != "" ==> !IsSpace(core[0]) && !IsSpace(core[|core| - 1]))
  }

  lemma {:induction false} TrimLeftIs(s: string) returns (i: nat)
    ensures i <= |s| && TrimLeft(s) == s[i..] && (forall k :: 0 <= k < i ==> IsSpace(s[k])) && (i < |s| ==> !IsSpace(s[i]))
  {
    if s != "" && IsSpace(s[0]) {
      var j := TrimLeftIs(s[1..]);
      i := j + 1;
    } else {
      i := 0;
    }
  }

  lemma {:induction false} TrimRightIs(s: string) returns (j: nat)
    ensures j <= |s| && TrimRight(s) == s[..j] && (forall k :: j <= k < |s| ==> IsSpace(s[k])) && (j > 0 ==> !IsSpace(s[j - 1]))
  {
    if s != "" && IsSpace(s[|s| - 1]) {
      var less := s[..|s| - 1];
      j := TrimRightIs(less);
      assert forall k :: 0 <= k < |less| ==> less[k] == s[k];
    } else {
      j := |s|;
    }
  }

  lemma TrimmedCore(name: string) returns (core: string, i: nat)
    ensures IsCore(name, core, i) && core == TrimRight(TrimLeft(name))
  {
    i := TrimLeftIs(name);
    var rest := name[i..];
    var j := TrimRightIs(rest);
    core := rest[..j];
    assert core == name[i..i + |core|];
    forall k | i + |core| <= k < |name| ensures IsSpace(name[k]) {
      var at := k - i;
      assert rest[at] == name[k];
    }
    if core != "" {
      assert rest[0] == name[i] && core[0] == rest[0];
    }
  }

  /** What normalising a name gives: the name without its outer spaces, in lower case, less one final dot. */
  lemma NormalForm(name: string) returns (core: string, i: nat)
    ensures IsCore(name, core, i)
    ensures var r := NormalizeDomain(name);
            && |r| == (if core != "" && core[|core| - 1] == '.' then |core| - 1 else |core|)
            && forall k :: 0 <= k < |r| ==> IsFolded(core[k], r[k])
  {
    core, i := TrimmedCore(name);
    var low := Lower(core);
    assert forall k :: 0 <= k < |core| ==> IsFolded(core[k], low[k]);
  }

  /** No stored name has a capital letter. */
  lemma NormalIsLower(name: string)
    ensures forall k :: 0 <= k < |NormalizeDomain(name)| ==> !('A' <= NormalizeDomain(name)[k] <= 'Z')
  {
  }

  /** Equal but for the case of ASCII letters. */
  predicate SameButCase(a: string, b: string) {
    |a| == |b| && forall k :: 0 <= k < |a| ==>
      a[k] == b[k] || ('A' <= a[k] <= 'Z' && b[k] as int == a[k] as int + 32) || ('A' <= b[k] <= 'Z' && a[k] as int == b[k] as int + 32)
  }

  lemma {:induction false} TrimLeftCase(a: string, b: string)
    requires SameButCase(a, b)
    ensures SameButCase(TrimLeft(a), TrimLeft(b))
  {
    if a != "" && IsSpace(a[0]) {
      TrimLeftCase(a[1..], b[1..]);
    }
  }

  lemma {:induction false} TrimRightCase(a: string, b: string)
    requires SameButCase(a, b)
    ensures SameButCase(TrimRight(a), TrimRight(b))
  {
    if a != "" && IsSpace(a[|a| - 1]) {
      TrimRightCase(a[..|a| - 1], b[..|b| - 1]);
    }
  }

  /** Names that differ in case only are one name: whoever owns one owns the other. */
  lemma CaseDoesNotMatter(a: string, b: string)
    requires SameButCase(a, b)
    ensures NormalizeDomain(a) == NormalizeDomain(b)
  {
    TrimLeftCase(a, b);
    TrimRightCase(TrimLeft(a), TrimLeft(b));
    var x, y := TrimRight(TrimLeft(a)), TrimRight(TrimLeft(b));
    assert Lower(x) == Lower(y);
  }

  /** Normalising once more is not always the same. */
  lemma NormalizeIsNotIdempotent()
    ensures NormalizeDomain("a..") == "a." && NormalizeDomain("a.") == "a"
  {
    assert Lower("a..") == "a.." && Lower("a.") == "a.";
  }

  // ----- the table

  datatype Site = Site(app: Id, tls: bool)

  type SiteTable = map<string, Site>

  datatype DomainSpec = DomainSpec(name: string, tls: bool)

  datatype Problem = InvalidName | OwnedByOther

  datatype Mapped = Mapped(sites: SiteTable, error: Option<Problem>)

  ghost function Owned(sites: SiteTable, app: Id): set<string> {
    set n | n in sites && sites[n].app == app
  }

  function Norms(ds: seq<DomainSpec>): set<string> {
    set d | d in ds :: NormalizeDomain(d.name)
  }

  function Raws(ds: seq<DomainSpec>): set<string> {
    set d | d in ds :: d.name
  }

  /** One entry of the list: create the domain, or adjust its flag, or refuse. */
  function MapOne(sites: SiteTable, app: Id, d: DomainSpec): Mapped {
    var n := NormalizeDomain(d.name);
    if n in sites then
      if sites[n].app != app then Mapped(sites, Some(OwnedByOther)) else Mapped(sites[n := Site(app, d.tls)], None)
    else if n == "" then Mapped(sites, Some(InvalidName))
    else Mapped(sites[n := Site(app, d.tls)], None)
  }

  /** The list in order, up to the first refusal. */
  function MapAll(sites: SiteTable, app: Id, ds: seq<DomainSpec>): Mapped {
    if ds == [] then Mapped(sites, None)
    else
      var m := MapAll(sites, app, ds[..|ds| - 1]);
      if m.error.Some? then m else MapOne(m.sites, app, ds[|ds| - 1])
  }

  /** Owned names that the list does not spell the way they are stored. */
  ghost function Stale(sites: SiteTable, app: Id, ds: seq<DomainSpec>): set<string> {
    Owned(sites, app) - Raws(ds)
  }

  ghost function Applied(sites: SiteTable, app: Id, ds: seq<DomainSpec>): Mapped {
    var m := MapAll(sites, app, ds);
    if m.error.Some? then m else Mapped(m.sites - Stale(sites, app, ds), None)
  }

  // ----- laws

  /** A name the application may have. */
  predicate Free(sites: SiteTable, app: Id, d: DomainSpec) {
    var n := NormalizeDomain(d.name);
    if n in sites then sites[n].app == app else n != ""
  }

  /** No other application's site is created, changed or removed. */
  ghost predicate Untouched(sites: SiteTable, sites': SiteTable, app: Id) {
    && (forall n :: n in sites && sites[n].app != app ==> n in sites' && sites'[n] == sites[n])
    && (forall n :: n in sites' && sites'[n].app != app ==> n in sites && sites'[n] == sites[n])
  }

  /** Mapping only adds sites of the application, none with an empty name. */
  ghost predicate Grown(sites: SiteTable, sites': SiteTable, app: Id) {
    && Untouched(sites, sites', app)
    && sites.Keys <= sites'.Keys
    && ("" in sites' ==> "" in sites)
  }

  lemma MapOneEffect(sites: SiteTable, app: Id, d: DomainSpec)
    ensures var m := MapOne(sites, app, d);
            && (m.error.None? <==> Free(sites, app, d))
            && (m.error.None? ==> Owned(m.sites, app) == Owned(sites, app) + {NormalizeDomain(d.name)})
            && Grown(sites, m.sites, app)
  {
  }

  lemma {:induction false} MapAllGrows(sites: SiteTable, app: Id, ds: seq<DomainSpec>)
    ensures Grown(sites, MapAll(sites, app, ds).sites, app)
  {
    if ds != [] {
      var less := ds[..|ds| - 1];
      MapAllGrows(sites, app, less);
      var m := MapAll(sites, app, less);
      if m.error.None? {
        MapOneEffect(m.sites, app, ds[|ds| - 1]);
      }
    }
  }

  lemma FreeStays(sites: SiteTable, sites': SiteTable, app: Id, d: DomainSpec)
    requires Grown(sites, sites', app)
    ensures Free(sites', app, d) <==> Free(sites, app, d)
  {
  }

  lemma LastOfList(ds: seq<DomainSpec>)
    requires ds != []
    ensures var less, last := ds[..|ds| - 1], ds[|ds| - 1];
            && (forall d :: d in ds <==> d in less || d == last)
            && Norms(ds) == Norms(less) + {NormalizeDomain(last.name)}
            && Raws(ds) == Raws(less) + {last.name}
  {
    var less, last := ds[..|ds| - 1], ds[|ds| - 1];
    assert ds == less + [last];
  }

  /** What mapping a list does: it succeeds if and only if every name is free for the application, and it then
      adds exactly those names. */
  lemma {:induction false} MapAllEffect(sites: SiteTable, app: Id, ds: seq<DomainSpec>)
    ensures var m := MapAll(sites, app, ds);
            && (m.error.None? <==> forall d :: d in ds ==> Free(sites, app, d))
            && (m.error.None? ==> Owned(m.sites, app) == Owned(sites, app) + Norms(ds))
  {
    if ds != [] {
      var less, last := ds[..|ds| - 1], ds[|ds| - 1];
      MapAllEffect(sites, app, less);
      MapAllGrows(sites, app, less);
      var m := MapAll(sites, app, less);
      LastOfList(ds);
      MapOneEffect(m.sites, app, last);
      FreeStays(sites, m.sites, app, last);
    }
  }

  /** Isolation: no apply, successful or not, alters another application's domains. */
  lemma ApplyIsolates(sites: SiteTable, app: Id, ds: seq<DomainSpec>)
    ensures Untouched(sites, Applied(sites, app, ds).sites, app)
  {
    MapAllGrows(sites, app, ds);
  }

  /** The exact outcome of a successful apply, whatever the names look like. */
  lemma ApplyOutcome(sites: SiteTable, app: Id, ds: seq<DomainSpec>)
    requires Applied(sites, app, ds).error.None?
    ensures Owned(Applied(sites, app, ds).sites, app) == Norms(ds) - (Owned(sites, app) - Raws(ds)) + (Owned(sites, app) * Raws(ds))
  {
    MapAllEffect(sites, app, ds);
    var m := MapAll(sites, app, ds);
    assert Owned(m.sites - Stale(sites, app, ds), app) == Owned(m.sites, app) - Stale(sites, app, ds);
  }

  /** Every listed name is spelled as it is stored. */
  predicate Normal(ds: seq<DomainSpec>) {
    forall d :: d in ds ==> NormalizeDomain(d.name) == d.name
  }

  lemma NormalNames(ds: seq<DomainSpec>)
    requires Normal(ds)
    ensures Norms(ds) == Raws(ds)
  {
    forall n | n in Norms(ds) ensures n in Raws(ds) {
      var d :| d in ds && NormalizeDomain(d.name) == n;
      assert d.name in Raws(ds);
    }
    forall n | n in Raws(ds) ensures n in Norms(ds) {
      var d :| d in ds && d.name == n;
      assert NormalizeDomain(d.name) in Norms(ds);
    }
  }

  /** An apply succeeds if and only if every listed name is free for the application. */
  lemma ApplySucceeds(sites: SiteTable, app: Id, ds: seq<DomainSpec>)
    ensures Applied(sites, app, ds).error.None? <==> forall d :: d in ds ==> Free(sites, app, d)
  {
    MapAllEffect(sites, app, ds);
  }

  /** No hijack by spelling: a name that some other application owns is refused in every case of its letters. */
  lemma OtherCaseIsRefused(sites: SiteTable, app: Id, ds: seq<DomainSpec>, d: DomainSpec, owned: string)
    requires d in ds && SameButCase(d.name, owned)
    requires NormalizeDomain(owned) in sites && sites[NormalizeDomain(owned)].app != app
    ensures Applied(sites, app, ds).error.Some?
  {
    CaseDoesNotMatter(d.name, owned);
    ApplySucceeds(sites, app, ds);
    assert !Free(sites, app, d);
  }

  /** Convergence: a successful apply leaves the application owning exactly the listed names if and only if
      each listed name it owned before is spelled as stored somewhere in the list, and each owned name the
      list spells as stored is what some entry normalises to. */
  lemma ApplyConverges(sites: SiteTable, app: Id, ds: seq<DomainSpec>)
    requires Applied(sites, app, ds).error.None?
    ensures Owned(Applied(sites, app, ds).sites, app) == Norms(ds)
            <==> Owned(sites, app) * Norms(ds) <= Raws(ds) && Owned(sites, app) * Raws(ds) <= Norms(ds)
  {
    ApplyOutcome(sites, app, ds);
    var o, n, r := Owned(sites, app), Norms(ds), Raws(ds);
    var after := n - (o - r) + (o * r);
    if o * n <= r && o * r <= n {
      assert after == n;
    }
    if after == n {
      forall x | x in o * n ensures x in r {
        assert x in after;
      }
      forall x | x in o * r ensures x in n {
        assert x in after;
      }
    }
  }

  lemma NormalConverges(sites: SiteTable, app: Id, ds: seq<DomainSpec>)
    requires Applied(sites, app, ds).error.None? && Normal(ds)
    ensures Owned(Applied(sites, app, ds).sites, app) == Raws(ds)
  {
    NormalNames(ds);
    ApplyConverges(sites, app, ds);
  }

  // ----- the flags, and applying twice

  /** No name is listed twice under any spelling. */
  predicate DistinctNames(ds: seq<DomainSpec>) {
    forall i, j :: 0 <= i < j < |ds| ==> NormalizeDomain(ds[i].name) != NormalizeDomain(ds[j].name)
  }

  /** The table shows the list. */
  ghost predicate ShowsList(sites: SiteTable, app: Id, ds: seq<DomainSpec>) {
    forall d :: d in ds ==> ShownIn(sites, app, d)
  }

  ghost predicate ShownIn(sites: SiteTable, app: Id, d: DomainSpec) {
    var n := NormalizeDomain(d.name);
    n in sites && sites[n] == Site(app, d.tls)
  }

  lemma DistinctLast(ds: seq<DomainSpec>)
    requires ds != [] && DistinctNames(ds)
    ensures var less, last := ds[..|ds| - 1], ds[|ds| - 1];
            DistinctNames(less) && forall d :: d in less ==> NormalizeDomain(d.name) != NormalizeDomain(last.name)
  {
    var less, last := ds[..|ds| - 1], ds[|ds| - 1];
    forall d | d in less ensures NormalizeDomain(d.name) != NormalizeDomain(last.name) {
      var i :| 0 <= i < |less| && less[i] == d;
      assert ds[i] == d;
    }
  }

  lemma OneMoreShown(sites: SiteTable, app: Id, ds: seq<DomainSpec>, d: DomainSpec)
    requires ShowsList(sites, app, ds) && MapOne(sites, app, d).error.None?
    requires forall x :: x in ds ==> NormalizeDomain(x.name) != NormalizeDomain(d.name)
    ensures ShowsList(MapOne(sites, app, d).sites, app, ds + [d])
  {
  }

  lemma {:induction false} MapAllShows(sites: SiteTable, app: Id, ds: seq<DomainSpec>)
    requires MapAll(sites, app, ds).error.None? && DistinctNames(ds)
    ensures ShowsList(MapAll(sites, app, ds).sites, app, ds)
  {
    if ds != [] {
      var less, last := ds[..|ds| - 1], ds[|ds| - 1];
      DistinctLast(ds);
      MapAllShows(sites, app, less);
      OneMoreShown(MapAll(sites, app, less).sites, app, less, last);
      assert less + [last] == ds;
    }
  }

  /** A list that the table shows changes nothing. */
  lemma {:induction false} MapAllIdle(sites: SiteTable, app: Id, ds: seq<DomainSpec>)
    requires ShowsList(sites, app, ds)
    ensures MapAll(sites, app, ds) == Mapped(sites, None)
  {
    if ds != [] {
      var less, last := ds[..|ds| - 1], ds[|ds| - 1];
      assert forall d :: d in less ==> d in ds;
      MapAllIdle(sites, app, less);
      assert last in ds;
      MapOneIdle(sites, app, last);
    }
  }

  lemma MapOneIdle(sites: SiteTable, app: Id, d: DomainSpec)
    requires ShownIn(sites, app, d)
    ensures MapOne(sites, app, d) == Mapped(sites, None)
  {
    assert sites[NormalizeDomain(d.name) := Site(app, d.tls)] == sites;
  }

  /** Idempotence: with names listed once and in their stored spelling, a second apply succeeds and changes
      nothing. */
  lemma ApplyTwice(sites: SiteTable, app: Id, ds: seq<DomainSpec>)
    requires Applied(sites, app, ds).error.None? && Normal(ds) && DistinctNames(ds)
    ensures ShowsList(Applied(sites, app, ds).sites, app, ds)
    ensures Applied(Applied(sites, app, ds).sites, app, ds) == Applied(sites, app, ds)
  {
    var once := Applied(sites, app, ds).sites;
    MapAllShows(sites, app, ds);
    forall d | d in ds ensures NormalizeDomain(d.name) !in Stale(sites, app, ds) {
      assert d.name in Raws(ds);
    }
    MapAllIdle(once, app, ds);
    NormalConverges(sites, app, ds);
    assert Stale(once, app, ds) == {};
    assert once - {} == once;
  }

  /** An accepted list is accepted again. */
  lemma AcceptedAgain(sites: SiteTable, app: Id, ds: seq<DomainSpec>)
    requires Applied(sites, app, ds).error.None? && "" !in sites
    ensures Applied(Applied(sites, app, ds).sites, app, ds).error.None? && "" !in Applied(sites, app, ds).sites
  {
    var once := Applied(sites, app, ds).sites;
    ApplySucceeds(sites, app, ds);
    ApplyIsolates(sites, app, ds);
    MapAllGrows(sites, app, ds);
    forall d | d in ds ensures Free(once, app, d) {
      assert Free(sites, app, d);
    }
    ApplySucceeds(once, app, ds);
  }

  /** Why the spelling matters: a name that some entry of an accepted list normalises to, while no entry spells it
      as stored, is owned after an apply if and only if it was not owned before; so every apply flips it. */
  lemma OtherSpellingFlaps(sites: SiteTable, app: Id, ds: seq<DomainSpec>, n: string)
    requires Applied(sites, app, ds).error.None? && "" !in sites
    requires n in Norms(ds) && n !in Raws(ds)
    ensures var once := Applied(sites, app, ds).sites;
            && (n in Owned(once, app) <==> n !in Owned(sites, app))
            && Applied(once, app, ds).error.None?
            && (n in Owned(Applied(once, app, ds).sites, app) <==> n in Owned(sites, app))
  {
    var once := Applied(sites, app, ds).sites;
    AcceptedAgain(sites, app, ds);
    ApplyOutcome(sites, app, ds);
    ApplyOutcome(once, app, ds);
  }
}
