/** Boot after boot with one schema: from which boot on nothing is created or dropped any more, and exactly when. */
module RepeatedBoots {
  import opened Json
  import opened Bootstrap

  /** The cluster after n boots with the same schema. */
  function After(env: Env, c: Cluster, listings: seq<seq<string>>, n: nat): (r: Cluster)
    requires c.nodes != [] && n <= |listings|
    ensures |r.nodes| == |c.nodes|
  {
    if n == 0 then c else Boot(env, After(env, c, listings, n - 1), listings[n - 1]).cluster
  }

  /** Boot number n, counting from zero. */
  function Nth(env: Env, c: Cluster, listings: seq<seq<string>>, n: nat): Outcome
    requires c.nodes != [] && n < |listings|
  {
    Boot(env, After(env, c, listings, n), listings[n])
  }

  lemma SettledBoot(env: Env, c: Cluster, listing: seq<string>)
    requires Settled(env, c)
    ensures Boot(env, c, listing) == Outcome(c, SensIndexName(c.hash), 0)
  {
  }

  lemma SettledOne(env: Env, c: Cluster, listings: seq<seq<string>>, n: nat, s: Cluster)
    requires c.nodes != [] && n < |listings| && After(env, c, listings, n) == s && Settled(env, s)
    ensures After(env, c, listings, n + 1) == s
  {
    SettledBoot(env, s, listings[n]);
  }

  lemma SettledSteps(env: Env, c: Cluster, listings: seq<seq<string>>, s: Cluster)
    requires c.nodes != [] && Settled(env, s)
    ensures forall k: nat | k < |listings| && After(env, c, listings, k) == s :: After(env, c, listings, k + 1) == s
  {
    forall k: nat | k < |listings| && After(env, c, listings, k) == s ensures After(env, c, listings, k + 1) == s {
      SettledOne(env, c, listings, k, s);
    }
  }

  lemma {:induction false} Stays(env: Env, c: Cluster, listings: seq<seq<string>>, m: nat, n: nat, s: Cluster)
    requires c.nodes != [] && m <= n <= |listings| && After(env, c, listings, m) == s
    requires forall k: nat | k < |listings| && After(env, c, listings, k) == s :: After(env, c, listings, k + 1) == s
    ensures After(env, c, listings, n) == s
  {
    if n > m {
      Stays(env, c, listings, m, n - 1, s);
    }
  }

  lemma SettledForever(env: Env, c: Cluster, listings: seq<seq<string>>, m: nat, n: nat)
    requires c.nodes != [] && m <= n < |listings| && Settled(env, After(env, c, listings, m))
    ensures After(env, c, listings, n) == After(env, c, listings, m)
    ensures Nth(env, c, listings, n)
            == Outcome(After(env, c, listings, m), SensIndexName(After(env, c, listings, m).hash), 0)
  {
    var s := After(env, c, listings, m);
    SettledSteps(env, c, listings, s);
    Stays(env, c, listings, m, n, s);
    SettledBoot(env, s, listings[n]);
  }

  // ------------------------------------------------------------ exactly when boots are quiet

  /** The cluster as a boot reads it. */
  function Read(c: Cluster): Cluster { c.(hash := ReadHash(c.hash)) }

  /** The first boot adopts the unversioned index. */
  predicate AdoptsLegacy(c: Cluster)
    requires c.nodes != []
  {
    (Read(c).hash.None? || Stranded(Read(c))) && HasDocs(c, BASE_INDEX_NAME)
  }

  /** The first boot adopts the populated unversioned index although some master lacks it. */
  predicate AdoptsIncomplete(c: Cluster)
    requires c.nodes != []
  {
    AdoptsLegacy(c) && !PresentOnAll(c.nodes, BASE_INDEX_NAME)
  }

  /** The suffix the first boot adopts from the listing, if it does. */
  function ListedAdoption(env: Env, c: Cluster, listing: seq<string>): Option<string>
    requires c.nodes != []
  {
    var foreign := Candidate(env, None, listing);
    var unrecorded := Read(c).hash.None? && !HasDocs(c, BASE_INDEX_NAME);
    if unrecorded && foreign.Some? && Adoptable(env, c.nodes, foreign.value) then foreign else None
  }

  /** A suffix that means, once stored as the hash key, what it meant in the listing. */
  predicate ReadsBack(env: Env, c: Cluster, suffix: string) {
    Plain(suffix) || (suffix == LEGACY_HASH_PREFIX + env.newHash && PresentOnAll(c.nodes, BASE_INDEX_NAME))
  }

  predicate AdoptionReadsBack(env: Env, c: Cluster, listing: seq<string>)
    requires c.nodes != []
  {
    ListedAdoption(env, c, listing).Some? ==> ReadsBack(env, c, ListedAdoption(env, c, listing).value)
  }

  /**
   The first boot replaces a populated-looking setup by a new index that reports no documents, while the
   unversioned index still has some but is not on every master: the boot after next migrates again.
   */
  predicate Relapses(env: Env, c: Cluster)
    requires c.nodes != []
  {
    var c0, newName := Read(c), VersionedIndexName(env.newHash);
    && c0.hash.Some? && Plain(c0.hash.value) && !Stranded(c0)
    && HasDocs(c, BASE_INDEX_NAME) && !PresentOnAll(c.nodes, BASE_INDEX_NAME)
    && !(c0.hash.value == env.newHash && PresentOnAll(c.nodes, newName)) && !Adoptable(env, c.nodes, c0.hash.value)
    && (DocCount(c, newName) == Some(0) || (DocCount(c, newName).None? && env.built == 0))
  }

  /** Rebuilding from a versioned index leaves the unversioned one alone. */
  lemma BaseStays(env: Env, c: Cluster, oldName: Option<string>)
    requires c.nodes != [] && oldName != Some(BASE_INDEX_NAME)
    ensures var c1 := Rebuild(env, c, oldName).cluster;
            && (PresentOnAll(c1.nodes, BASE_INDEX_NAME) <==> PresentOnAll(c.nodes, BASE_INDEX_NAME))
            && HasDocs(c1, BASE_INDEX_NAME) == HasDocs(c, BASE_INDEX_NAME)
            && DocCount(c1, VersionedIndexName(env.newHash))
               == Some(if VersionedIndexName(env.newHash) in c.nodes[0]
                  then c.nodes[0][VersionedIndexName(env.newHash)] else env.built)
  {
    VersionedIsNotBase(env.newHash);
    var newName := VersionedIndexName(env.newHash);
    var c1 := Rebuild(env, c, oldName).cluster;
    forall i | 0 <= i < |c.nodes| ensures BASE_INDEX_NAME in c1.nodes[i] <==> BASE_INDEX_NAME in c.nodes[i] {
      assert c1.nodes[i] == RebuiltNode(c.nodes[i], newName, oldName, env.built);
    }
  }

  lemma AfterAdoption(env: Env, c: Cluster, listing: seq<string>)
    requires EnvOk(env) && c.nodes != [] && AdoptsLegacy(c)
    ensures Boot(env, c, listing).cluster == c.(hash := Some(LEGACY_HASH_PREFIX + env.newHash))
    ensures var c1 := Boot(env, c, listing).cluster; OnLegacy(env, c1) && !OnVersioned(env, c1) && !Relapses(env, c)
  {
    LegacyOf(env.newHash);
  }

  lemma AfterLegacy(env: Env, c: Cluster, listing: seq<string>)
    requires EnvOk(env) && c.nodes != [] && Read(c).hash.Some? && IsLegacy(Read(c).hash.value)
    ensures var c1 := Boot(env, c, listing).cluster;
            && |c1.nodes| == |c.nodes| && !AdoptsIncomplete(c) && !Relapses(env, c)
            && (if OnLegacy(env, c1) then PresentOnAll(c1.nodes, BASE_INDEX_NAME)
               else OnVersioned(env, c1) && !Stranded(c1))
  {
    var c0 := Read(c);
    LegacyOf(env.newHash);
    VersionedIsNotBase(env.newHash);
    RebuildLands(env, c0, Some(BASE_INDEX_NAME));
    assert c0.hash.value == LEGACY_HASH_PREFIX + c0.hash.value[|LEGACY_HASH_PREFIX|..];
    var c1 := Boot(env, c, listing).cluster;
    if !OnLegacy(env, c1) { assert BASE_INDEX_NAME !in c1.nodes[0]; }
  }

  lemma AfterVersioned(env: Env, c: Cluster, listing: seq<string>)
    requires EnvOk(env) && c.nodes != [] && !AdoptsLegacy(c) && ListedAdoption(env, c, listing).None?
    requires Read(c).hash.Some? ==> !IsLegacy(Read(c).hash.value)
    ensures var c1 := Boot(env, c, listing).cluster;
            && |c1.nodes| == |c.nodes| && OnVersioned(env, c1) && !OnLegacy(env, c1) && !AdoptsIncomplete(c)
            && (Stranded(c1) && !PresentOnAll(c1.nodes, BASE_INDEX_NAME) <==> Relapses(env, c))
  {
    var c0 := Read(c);
    LegacyOf(env.newHash);
    VersionedIsNotBase(env.newHash);
    var oldName := if c0.hash.Some? then Some(VersionedIndexName(c0.hash.value)) else None;
    RebuildLands(env, c0, oldName);
    if c0.hash.Some? { VersionedIsNotBase(c0.hash.value); }
    BaseStays(env, c0, oldName);
  }

  /** Where the first boot leaves the cluster, told from the cluster before it. */
  lemma FirstBoot(env: Env, c: Cluster, listing: seq<string>)
    requires EnvOk(env) && c.nodes != []
    ensures var c1, listed := Boot(env, c, listing).cluster, ListedAdoption(env, c, listing);
            && |c1.nodes| == |c.nodes|
            && (listed.Some? ==> c1 == c.(hash := listed))
            && (listed.None? ==>
                  && (OnLegacy(env, c1) || OnVersioned(env, c1))
                  && (OnLegacy(env, c1) && !PresentOnAll(c1.nodes, BASE_INDEX_NAME) <==> AdoptsIncomplete(c))
                  && (OnVersioned(env, c1) && Stranded(c1) && !PresentOnAll(c1.nodes, BASE_INDEX_NAME)
                     <==> Relapses(env, c)))
  {
    LegacyOf(env.newHash);
    VersionedIsNotBase(env.newHash);
    var c0, listed := Read(c), ListedAdoption(env, c, listing);
    if listed.None? {
      if AdoptsLegacy(c) {
        AfterAdoption(env, c, listing);
      } else if c0.hash.Some? && IsLegacy(c0.hash.value) {
        AfterLegacy(env, c, listing);
      } else {
        AfterVersioned(env, c, listing);
      }
    }
  }

  ghost predicate SecondBootQuiet(env: Env, c: Cluster, listing: seq<string>)
    requires c.nodes != []
  {
    forall next :: Boot(env, Boot(env, c, listing).cluster, next).commands == 0
  }

  lemma LegacyBootQuiet(env: Env, c: Cluster, listing: seq<string>)
    requires EnvOk(env) && c.nodes != [] && OnLegacy(env, c)
    ensures Boot(env, c, listing).commands == 0 <==> PresentOnAll(c.nodes, BASE_INDEX_NAME)
  {
    LegacyOf(env.newHash);
  }

  /** A boot right after an adoption from the listing. */
  lemma AfterListedAdoption(env: Env, c: Cluster, suffix: string)
    requires EnvOk(env) && c.nodes != [] && c.hash == Some(suffix) && !HasDocs(c, BASE_INDEX_NAME)
             && Adoptable(env, c.nodes, suffix)
    ensures ReadsBack(env, c, suffix) ==> Settled(env, c)
    ensures !ReadsBack(env, c, suffix) ==> Boot(env, c, []).commands > 0
  {
    LegacyOf(env.newHash);
    if Plain(suffix) {
      VersionedSettles(env, c);
    } else if ReadsBack(env, c, suffix) {
      LegacySettles(env, c);
    } else if IsLegacy(suffix) {
      assert suffix == LEGACY_HASH_PREFIX + suffix[|LEGACY_HASH_PREFIX|..];
    }
  }

  /**
   The second boot is quiet, whatever it is listed, iff the first neither adopts an unversioned index some
   master lacks nor a listed one whose suffix reads back as something else. Both can be told beforehand.
   */
  lemma SecondBootQuietExactly(env: Env, c: Cluster, listing: seq<string>)
    requires EnvOk(env) && c.nodes != []
    ensures SecondBootQuiet(env, c, listing) <==> !AdoptsIncomplete(c) && AdoptionReadsBack(env, c, listing)
  {
    var c1, listed := Boot(env, c, listing).cluster, ListedAdoption(env, c, listing);
    FirstBoot(env, c, listing);
    if listed.Some? {
      AfterListedAdoption(env, c1, listed.value);
      if ReadsBack(env, c1, listed.value) {
        forall next ensures Boot(env, c1, next).commands == 0 { SettledBoot(env, c1, next); }
      }
    } else if OnLegacy(env, c1) {
      forall next
        ensures Boot(env, c1, next).commands == 0 <==> PresentOnAll(c1.nodes, BASE_INDEX_NAME)
      {
        LegacyBootQuiet(env, c1, next);
      }
      assert Boot(env, c1, []).commands == 0 <==> PresentOnAll(c1.nodes, BASE_INDEX_NAME);
    } else {
      forall next ensures Boot(env, c1, next).commands == 0 {
        if Stranded(c1) {
          StrandedRecovers(env, c1, next);
        } else {
          VersionedSettles(env, c1);
          SettledBoot(env, c1, next);
        }
      }
    }
  }

  /** All boots from number m on, counting from zero, are quiet and resolve the index readers resolve. */
  ghost predicate QuietFrom(env: Env, c: Cluster, listing: seq<string>, m: nat)
    requires c.nodes != []
  {
    forall listings: seq<seq<string>>, n: nat | m <= n < |listings| && listings[0] == listing ::
      && Nth(env, c, listings, n).commands == 0
      && Nth(env, c, listings, n).resolved == SensIndexName(After(env, c, listings, m + 1).hash)
  }

  lemma QuietOnceSettled(env: Env, c: Cluster, listing: seq<string>, m: nat)
    requires c.nodes != []
    requires forall listings: seq<seq<string>> | m < |listings| && listings[0] == listing ::
             Settled(env, After(env, c, listings, m))
    ensures QuietFrom(env, c, listing, m)
  {
    forall listings: seq<seq<string>>, n: nat | m <= n < |listings| && listings[0] == listing
      ensures Nth(env, c, listings, n).commands == 0
      ensures Nth(env, c, listings, n).resolved == SensIndexName(After(env, c, listings, m + 1).hash)
    {
      SettledForever(env, c, listings, m, n);
      SettledOne(env, c, listings, m, After(env, c, listings, m));
    }
  }

  // ------------------------------------------------------------ from which boot on

  /**
   After a first boot that is not followed by a migration, the second is quiet and the third finds a settled cluster.
   */
  lemma SettlesAtOnce(env: Env, c: Cluster, listings: seq<seq<string>>)
    requires EnvOk(env) && c.nodes != [] && |listings| >= 2
    requires !AdoptsIncomplete(c) && AdoptionReadsBack(env, c, listings[0]) && !Relapses(env, c)
    ensures Settled(env, After(env, c, listings, 2))
    ensures Nth(env, c, listings, 1).commands == 0
    ensures Nth(env, c, listings, 1).resolved == SensIndexName(After(env, c, listings, 2).hash)
  {
    assert After(env, c, listings, 0) == c;
    var c1, listed := After(env, c, listings, 1), ListedAdoption(env, c, listings[0]);
    FirstBoot(env, c, listings[0]);
    if listed.None? && OnVersioned(env, c1) && Stranded(c1) {
      StrandedRecovers(env, c1, listings[1]);
      LegacySettles(env, After(env, c, listings, 2));
      LegacyOf(env.newHash);
    } else {
      if listed.Some? {
        AfterListedAdoption(env, c1, listed.value);
      } else if OnLegacy(env, c1) {
        LegacySettles(env, c1);
      } else {
        VersionedSettles(env, c1);
      }
      SettledOne(env, c, listings, 1, c1);
      SettledBoot(env, c1, listings[1]);
    }
  }

  /** A suffix that reads as a legacy tag is migrated away from by the next boot, and the unversioned index dropped. */
  lemma LegacyLookingMigrates(env: Env, c: Cluster, listing: seq<string>)
    requires EnvOk(env) && c.nodes != [] && c.hash.Some? && IsLegacy(c.hash.value) && !ReadsBack(env, c, c.hash.value)
    ensures Settled(env, Boot(env, c, listing).cluster)
  {
    LegacyOf(env.newHash);
    VersionedIsNotBase(env.newHash);
    assert c.hash.value == LEGACY_HASH_PREFIX + c.hash.value[|LEGACY_HASH_PREFIX|..];
    var c1 := Boot(env, c, listing).cluster;
    assert BASE_INDEX_NAME !in c1.nodes[0];
    VersionedSettles(env, c1);
  }

  lemma SettlesByThird(env: Env, c: Cluster, listings: seq<seq<string>>)
    requires EnvOk(env) && c.nodes != [] && |listings| >= 2
    requires ListedAdoption(env, c, listings[0]) != Some("") && !Relapses(env, c)
    ensures Settled(env, After(env, c, listings, 2))
  {
    assert After(env, c, listings, 0) == c;
    var c1, listed := After(env, c, listings, 1), ListedAdoption(env, c, listings[0]);
    FirstBoot(env, c, listings[0]);
    if !AdoptsIncomplete(c) && AdoptionReadsBack(env, c, listings[0]) {
      SettlesAtOnce(env, c, listings);
    } else if listed.Some? {
      LegacyLookingMigrates(env, c1, listings[1]);
    } else {
      LegacyMigrates(env, c1, listings[1]);
    }
  }

  lemma SettlesByFourth(env: Env, c: Cluster, listings: seq<seq<string>>)
    requires EnvOk(env) && c.nodes != [] && |listings| >= 3
    requires ListedAdoption(env, c, listings[0]) != Some("")
    ensures Settled(env, After(env, c, listings, 3))
  {
    assert After(env, c, listings, 0) == c;
    if Relapses(env, c) {
      var c1 := After(env, c, listings, 1);
      FirstBoot(env, c, listings[0]);
      StrandedRecovers(env, c1, listings[1]);
      LegacyMigrates(env, After(env, c, listings, 2), listings[2]);
    } else {
      SettlesByThird(env, c, listings);
      SettledOne(env, c, listings, 2, After(env, c, listings, 2));
    }
  }

  lemma AdoptsEmptyAgain(env: Env, c: Cluster, listing: seq<string>)
    requires c.nodes != [] && ListedAdoption(env, c, listing) == Some("")
    ensures Boot(env, c.(hash := Some("")), listing).cluster == c.(hash := Some(""))
  {
  }

  /** While the listing keeps naming an index with an empty suffix nothing settles. */
  lemma {:induction false} EmptySuffixStays(env: Env, c: Cluster, listing: seq<string>, listings: seq<seq<string>>,
      k: nat)
    requires EnvOk(env) && c.nodes != [] && ListedAdoption(env, c, listing) == Some("") && 1 <= k <= |listings|
    requires forall i | 0 <= i < k :: listings[i] == listing
    ensures After(env, c, listings, k) == c.(hash := Some(""))
  {
    if k == 1 {
      assert After(env, c, listings, 0) == c;
    } else {
      EmptySuffixStays(env, c, listing, listings, k - 1);
      AdoptsEmptyAgain(env, c, listing);
      assert After(env, c, listings, k) == Boot(env, After(env, c, listings, k - 1), listings[k - 1]).cluster;
    }
  }

  lemma EmptySuffixUnsettled(env: Env, c: Cluster, listing: seq<string>, m: nat)
    requires EnvOk(env) && c.nodes != [] && ListedAdoption(env, c, listing) == Some("") && m >= 1
    ensures !QuietFrom(env, c, listing, m)
  {
    var listings := seq(m, _ => listing) + [[]];
    EmptySuffixStays(env, c, listing, listings, m);
    assert Nth(env, c, listings, m).commands > 0 && listings[0] == listing;
  }

  lemma NotQuietAt(env: Env, c: Cluster, listing: seq<string>, listings: seq<seq<string>>, m: nat, n: nat)
    requires c.nodes != [] && m <= n < |listings| && listings[0] == listing && Nth(env, c, listings, n).commands > 0
    ensures !QuietFrom(env, c, listing, m)
  {
  }

  lemma UnquietSecond(env: Env, c: Cluster, listing: seq<string>)
    requires EnvOk(env) && c.nodes != [] && (AdoptsIncomplete(c) || !AdoptionReadsBack(env, c, listing))
    ensures !QuietFrom(env, c, listing, 1)
  {
    SecondBootQuietExactly(env, c, listing);
    var next :| Boot(env, Boot(env, c, listing).cluster, next).commands != 0;
    assert After(env, c, [listing, next], 0) == c;
    NotQuietAt(env, c, listing, [listing, next], 1, 1);
  }

  lemma UnquietThird(env: Env, c: Cluster, listing: seq<string>, m: nat)
    requires EnvOk(env) && c.nodes != [] && Relapses(env, c) && 1 <= m <= 2
    ensures !QuietFrom(env, c, listing, m)
  {
    var listings := [listing, [], []];
    assert After(env, c, listings, 0) == c;
    var c1, c2 := After(env, c, listings, 1), After(env, c, listings, 2);
    FirstBoot(env, c, listing);
    StrandedRecovers(env, c1, []);
    LegacyBootQuiet(env, c2, []);
    NotQuietAt(env, c, listing, listings, m, 2);
  }

  lemma QuietFromSecond(env: Env, c: Cluster, listing: seq<string>)
    requires EnvOk(env) && c.nodes != []
    requires !AdoptsIncomplete(c) && AdoptionReadsBack(env, c, listing) && !Relapses(env, c)
    ensures QuietFrom(env, c, listing, 1)
  {
    forall listings: seq<seq<string>>, n: nat | 1 <= n < |listings| && listings[0] == listing
      ensures Nth(env, c, listings, n).commands == 0
      ensures Nth(env, c, listings, n).resolved == SensIndexName(After(env, c, listings, 2).hash)
    {
      SettlesAtOnce(env, c, listings);
      if n > 1 { SettledForever(env, c, listings, 2, n); }
    }
  }

  /**
   From which boot on every boot is quiet and resolves one index, whatever later listings say. Number one, the
   second boot: iff the first neither adopts an incomplete unversioned index, nor a listed suffix that does not read
   back, nor relapses. Number two: iff it does not relapse nor adopt the empty suffix. Number three and later:
   iff it does not adopt the empty suffix.
   */
  lemma QuietExactly(env: Env, c: Cluster, listing: seq<string>, m: nat)
    requires EnvOk(env) && c.nodes != [] && m >= 1
    ensures QuietFrom(env, c, listing, m) <==>
            && ListedAdoption(env, c, listing) != Some("")
            && (m <= 2 ==> !Relapses(env, c))
            && (m <= 1 ==> !AdoptsIncomplete(c) && AdoptionReadsBack(env, c, listing))
  {
    var empty := ListedAdoption(env, c, listing) == Some("");
    var early := AdoptsIncomplete(c) || !AdoptionReadsBack(env, c, listing);
    if empty {
      EmptySuffixUnsettled(env, c, listing, m);
    } else if m <= 2 && Relapses(env, c) {
      UnquietThird(env, c, listing, m);
    } else if m <= 1 && early {
      UnquietSecond(env, c, listing);
    } else if m == 1 {
      QuietFromSecond(env, c, listing);
    } else {
      forall listings: seq<seq<string>> | m < |listings| && listings[0] == listing
        ensures Settled(env, After(env, c, listings, m))
      {
        if m == 2 {
          SettlesByThird(env, c, listings);
        } else {
          SettlesByFourth(env, c, listings);
          SettledForever(env, c, listings, 3, m);
        }
      }
      QuietOnceSettled(env, c, listing, m);
    }
  }

  ghost predicate Uniform(c: Cluster) { c.nodes != [] && forall i | 0 <= i < |c.nodes| :: c.nodes[i] == c.nodes[0] }

  /** On masters that agree only the listed suffix matters. */
  lemma UniformQuietExactly(env: Env, c: Cluster, listing: seq<string>)
    requires EnvOk(env) && Uniform(c)
    ensures QuietFrom(env, c, listing, 1) <==> AdoptionReadsBack(env, c, listing)
  {
    QuietExactly(env, c, listing, 1);
    assert HasDocs(c, BASE_INDEX_NAME) ==> PresentOnAll(c.nodes, BASE_INDEX_NAME);
  }

  // ------------------------------------------------------------ the conditions do fail

  /** Masters that disagree: the second boot still drops and creates. */
  lemma SecondBootMayRebuild(env: Env)
    requires EnvOk(env)
    ensures var c := Cluster(None, [map[BASE_INDEX_NAME := 1], map[]]);
            Boot(env, c, []).commands == 0 && Boot(env, Boot(env, c, []).cluster, []).commands > 0
  {
    var c := Cluster(None, [map[BASE_INDEX_NAME := 1], map[]]);
    LegacyOf(env.newHash);
    VersionedIsNotBase(env.newHash);
    assert !PresentOnAll(c.nodes, BASE_INDEX_NAME) by { assert BASE_INDEX_NAME !in c.nodes[1]; }
  }

  /** An index whose suffix reads as a legacy tag is adopted and then migrated away from. */
  lemma LegacyLookingIndexUnsettles(env: Env)
    requires EnvOk(env) && env.mode == On && env.compatible("idx:sens:vlegacy:")
    ensures var c := Cluster(None, [map["idx:sens:vlegacy:" := 1]]);
            Uniform(c) && Boot(env, c, ["idx:sens:vlegacy:"]).commands == 0
            && Boot(env, Boot(env, c, ["idx:sens:vlegacy:"]).cluster, []).commands > 0
  {
    var name := "idx:sens:vlegacy:";
    var c := Cluster(None, [map[name := 1]]);
    assert name == VERSIONED_PREFIX + LEGACY_HASH_PREFIX == VersionedIndexName(LEGACY_HASH_PREFIX);
    assert name[|VERSIONED_PREFIX|..] == LEGACY_HASH_PREFIX;
    assert HashPrefix(env.newHash) == VersionedIndexName(env.newHash)[|VERSIONED_PREFIX|..];
    assert ForeignOf([name], VersionedIndexName(env.newHash)) == Some(LEGACY_HASH_PREFIX);
    assert BASE_INDEX_NAME !in c.nodes[0] by { assert |name| != |BASE_INDEX_NAME|; }
    VersionedIsNotBase(env.newHash);
  }

  /** The third boot can still migrate: an empty new index over an unversioned one some master lacks. */
  lemma ThirdBootMayMigrate(env: Env, recorded: string)
    requires EnvOk(env) && env.mode == Off && env.built == 0 && Plain(recorded) && recorded != env.newHash
    ensures var c := Cluster(Some(recorded), [map[BASE_INDEX_NAME := 1], map[]]);
            Relapses(env, c) && Nth(env, c, [[], [], []], 1).commands == 0 && Nth(env, c, [[], [], []], 2).commands > 0
  {
    var c, listings := Cluster(Some(recorded), [map[BASE_INDEX_NAME := 1], map[]]), [[], [], []];
    VersionedIsNotBase(recorded);
    VersionedIsNotBase(env.newHash);
    assert !PresentOnAll(c.nodes, BASE_INDEX_NAME) by { assert BASE_INDEX_NAME !in c.nodes[1]; }
    assert After(env, c, listings, 0) == c;
    FirstBoot(env, c, []);
    StrandedRecovers(env, After(env, c, listings, 1), []);
    LegacyBootQuiet(env, After(env, c, listings, 2), []);
  }
}
