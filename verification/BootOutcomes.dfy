/** What one boot does to any cluster, told from the stored hash, the listing and the masters' indexes alone. */
module BootOutcomes {
  import opened Json
  import opened Bootstrap

  // ------------------------------------------------------------ reading the cluster

  /** The versioned index of a hash: the prefix and up to seven characters. */
  function NameFor(hash: string): string { "idx:sens:v" + if |hash| <= 7 then hash else hash[..7] }

  predicate OnEveryMaster(c: Cluster, name: string) { forall node | node in c.nodes :: name in node }

  /** The first master has the unversioned index, with documents. */
  predicate BaseFilled(c: Cluster)
    requires c.nodes != []
  {
    "idx:sens" in c.nodes[0] && c.nodes[0]["idx:sens"] > 0
  }

  /** A hash is stored; the empty text is none. */
  predicate Recorded(c: Cluster, hash: string) { c.hash == Some(hash) && hash != "" }

  predicate NothingRecorded(c: Cluster) { c.hash.None? || c.hash.value == "" }

  /** The unversioned index is taken over: nothing is recorded, or a versioned index without documents. */
  predicate TakesBase(c: Cluster)
    requires c.nodes != []
  {
    BaseFilled(c)
    && (NothingRecorded(c)
        || (!("legacy:" <= c.hash.value) && NameFor(c.hash.value) in c.nodes[0]
            && c.nodes[0][NameFor(c.hash.value)] == 0))
  }

  predicate HasLegacyTag(c: Cluster) { c.hash.Some? && "legacy:" <= c.hash.value }

  predicate IsForeign(name: string, own: string) { "idx:sens:v" <= name && name != own }

  /** The first versioned index listed besides our own. */
  predicate FirstListed(listing: seq<string>, i: int, own: string) {
    0 <= i < |listing| && IsForeign(listing[i], own) && forall j | 0 <= j < i :: !IsForeign(listing[j], own)
  }

  /** The suffix of the index a boot would rather keep: the recorded hash, or the first listed one without one. */
  ghost predicate Sought(env: Env, c: Cluster, listing: seq<string>, suffix: string) {
    && suffix != env.newHash
    && (|| Recorded(c, suffix)
        || (NothingRecorded(c) && exists i ::
              FirstListed(listing, i, NameFor(env.newHash)) && listing[i] == "idx:sens:v" + suffix))
  }

  /** The index of a suffix is kept instead of building ours. */
  ghost predicate Keeps(env: Env, c: Cluster, listing: seq<string>, suffix: string) {
    && env.mode == On && Sought(env, c, listing, suffix)
    && OnEveryMaster(c, NameFor(suffix)) && env.compatible(NameFor(suffix))
  }

  /** Every master has `name` afterwards, with its documents if it had it; `dropped` is gone, the rest untouched. */
  ghost predicate BuiltOn(before: Cluster, after: Cluster, name: string, dropped: Option<string>, built: nat) {
    && |after.nodes| == |before.nodes|
    && forall i, k | 0 <= i < |before.nodes| ::
         && (k in after.nodes[i] <==> k == name || (k in before.nodes[i] && dropped != Some(k)))
         && (k in after.nodes[i] && k in before.nodes[i] ==> after.nodes[i][k] == before.nodes[i][k])
         && (k in after.nodes[i] && k !in before.nodes[i] ==> after.nodes[i][k] == built)
  }

  /** Ours is built on every master, the index boots used so far is dropped, and ours is recorded and resolved. */
  ghost predicate Builds(env: Env, c: Cluster, dropped: Option<string>, r: Outcome) {
    var own := NameFor(env.newHash);
    && r.resolved == own && r.cluster.hash == Some(env.newHash)
    && BuiltOn(c, r.cluster, own, if dropped == Some(own) then None else dropped, env.built)
    && r.commands == (if dropped.Some? && dropped.value != own then 2 * |c.nodes| else |c.nodes|)
  }

  // ------------------------------------------------------------ the model's terms

  lemma NamesAgree(hash: string)
    ensures VersionedIndexName(hash) == NameFor(hash)
  {
  }

  lemma PresenceAgrees(c: Cluster, name: string)
    ensures PresentOnAll(c.nodes, name) <==> OnEveryMaster(c, name)
  {
    if PresentOnAll(c.nodes, name) {
      forall node | node in c.nodes ensures name in node {
        var i :| 0 <= i < |c.nodes| && c.nodes[i] == node;
      }
    }
  }

  lemma {:induction false} ForeignFound(listing: seq<string>, own: string, suffix: string)
    ensures ForeignOf(listing, own) == Some(suffix)
            <==> exists i :: FirstListed(listing, i, own) && listing[i] == "idx:sens:v" + suffix
  {
    if listing != [] {
      var rest := listing[1..];
      ForeignFound(rest, own, suffix);
      if IsForeign(listing[0], own) {
        assert listing[0] == "idx:sens:v" + listing[0][|"idx:sens:v"|..];
        assert FirstListed(listing, 0, own);
        forall i | FirstListed(listing, i, own) ensures i == 0 {}
        assert ("idx:sens:v" + suffix)[|"idx:sens:v"|..] == suffix;
      } else {
        if ForeignOf(rest, own) == Some(suffix) {
          var i :| FirstListed(rest, i, own) && rest[i] == "idx:sens:v" + suffix;
          ListedLater(listing, i, own);
        }
        forall i | FirstListed(listing, i, own) && listing[i] == "idx:sens:v" + suffix
          ensures FirstListed(rest, i - 1, own) && rest[i - 1] == "idx:sens:v" + suffix
        {
          forall j | 0 <= j < i - 1 ensures !IsForeign(rest[j], own) { assert rest[j] == listing[j + 1]; }
        }
      }
    }
  }

  lemma ListedLater(listing: seq<string>, i: int, own: string)
    requires listing != [] && !IsForeign(listing[0], own) && FirstListed(listing[1..], i, own)
    ensures FirstListed(listing, i + 1, own)
  {
    forall j | 0 <= j < i + 1 ensures !IsForeign(listing[j], own) {
      if j > 0 { assert listing[j] == listing[1..][j - 1]; }
    }
  }

  lemma RebuildBuilds(env: Env, c: Cluster, nodes: seq<Node>, oldName: Option<string>)
    requires c.nodes == nodes
    ensures Builds(env, c, oldName, Rebuild(env, c, oldName))
  {
    NamesAgree(env.newHash);
    var own := NameFor(env.newHash);
    var r := Rebuild(env, c, oldName);
    forall i, k | 0 <= i < |nodes|
      ensures var dropped := if oldName == Some(own) then None else oldName;
              && (k in r.cluster.nodes[i] <==> k == own || (k in nodes[i] && dropped != Some(k)))
              && (k in r.cluster.nodes[i] && k in nodes[i] ==> r.cluster.nodes[i][k] == nodes[i][k])
              && (k in r.cluster.nodes[i] && k !in nodes[i] ==> r.cluster.nodes[i][k] == env.built)
    {
      assert r.cluster.nodes[i] == RebuiltNode(nodes[i], own, oldName, env.built);
    }
  }

  // ------------------------------------------------------------ every boot

  lemma TakingBase(env: Env, c: Cluster, listing: seq<string>)
    requires c.nodes != []
    ensures TakesBase(c) ==>
              Boot(env, c, listing) == Outcome(Cluster(Some("legacy:" + env.newHash), c.nodes), "idx:sens", 0)
    ensures !TakesBase(c) ==>
              Boot(env, c, listing)
              == if HasLegacyTag(c) then LegacyBranch(env, c)
                 else VersionedBranch(env, c.(hash := ReadHash(c.hash)), listing)
  {
    if c.hash.Some? { NamesAgree(c.hash.value); }
  }

  /** A legacy tag: ours over a present unversioned index stays, any other is migrated away. */
  lemma LegacyTagged(env: Env, c: Cluster, listing: seq<string>)
    requires c.nodes != [] && !TakesBase(c) && HasLegacyTag(c)
    ensures var r := Boot(env, c, listing);
            if c.hash == Some("legacy:" + env.newHash) && OnEveryMaster(c, "idx:sens")
            then r == Outcome(c, "idx:sens", 0)
            else Builds(env, c, Some("idx:sens"), r)
  {
    TakingBase(env, c, listing);
    PresenceAgrees(c, "idx:sens");
    RebuildBuilds(env, c, c.nodes, Some("idx:sens"));
    assert c.hash.value == "legacy:" + c.hash.value[|"legacy:"|..];
    assert ("legacy:" + env.newHash)[|"legacy:"|..] == env.newHash;
  }

  lemma CandidateSought(env: Env, c: Cluster, listing: seq<string>, suffix: string)
    requires c.nodes != [] && env.mode == On
    ensures (Candidate(env, ReadHash(c.hash), listing) == Some(suffix) && suffix != env.newHash)
            <==> Sought(env, c, listing, suffix)
  {
    NamesAgree(env.newHash);
    ForeignFound(listing, NameFor(env.newHash), suffix);
  }

  lemma KeepsExactly(env: Env, c: Cluster, listing: seq<string>, suffix: string)
    requires c.nodes != []
    ensures Keeps(env, c, listing, suffix)
            <==> Candidate(env, ReadHash(c.hash), listing) == Some(suffix) && Adoptable(env, c.nodes, suffix)
  {
    NamesAgree(suffix);
    PresenceAgrees(c, NameFor(suffix));
    if env.mode == On { CandidateSought(env, c, listing, suffix); }
  }

  /** No legacy tag: ours if recorded and present, else the kept one if there is one, else ours is built. */
  lemma Versioned(env: Env, c: Cluster, listing: seq<string>)
    requires c.nodes != [] && !TakesBase(c) && !HasLegacyTag(c)
    ensures var r, own := Boot(env, c, listing), NameFor(env.newHash);
            if Recorded(c, env.newHash) && OnEveryMaster(c, own) then r == Outcome(c, own, 0)
            else
              && (forall s | Keeps(env, c, listing, s) :: r == Outcome(Cluster(Some(s), c.nodes), NameFor(s), 0))
              && ((forall s :: !Keeps(env, c, listing, s)) ==>
                    Builds(env, c, if NothingRecorded(c) then None else Some(NameFor(c.hash.value)), r))
  {
    var own := NameFor(env.newHash);
    NamesAgree(env.newHash);
    TakingBase(env, c, listing);
    PresenceAgrees(c, own);
    VersionedKept(env, c, listing);
  }

  lemma VersionedKept(env: Env, c: Cluster, listing: seq<string>)
    requires c.nodes != []
    ensures var c0 := c.(hash := ReadHash(c.hash));
            var r := VersionedBranch(env, c0, listing);
            !(c0.hash == Some(env.newHash) && PresentOnAll(c.nodes, VersionedIndexName(env.newHash))) ==>
              && (forall s | Keeps(env, c, listing, s) :: r == Outcome(Cluster(Some(s), c.nodes), NameFor(s), 0))
              && ((forall s :: !Keeps(env, c, listing, s)) ==>
                    Builds(env, c, if NothingRecorded(c) then None else Some(NameFor(c.hash.value)), r))
  {
    var c0 := c.(hash := ReadHash(c.hash));
    forall s | Keeps(env, c, listing, s)
      ensures Candidate(env, c0.hash, listing) == Some(s) && Adoptable(env, c.nodes, s)
      ensures VersionedIndexName(s) == NameFor(s)
    {
      KeepsExactly(env, c, listing, s);
      NamesAgree(s);
    }
    if forall s :: !Keeps(env, c, listing, s) {
      var foreign := Candidate(env, c0.hash, listing);
      if foreign.Some? { KeepsExactly(env, c, listing, foreign.value); }
      if c0.hash.Some? { NamesAgree(c0.hash.value); }
      var oldName := if c0.hash.Some? then Some(NameFor(c0.hash.value)) else None;
      RebuildBuilds(env, c0, c0.nodes, oldName);
      assert Rebuild(env, c0, oldName) == Rebuild(env, c, oldName);
    }
  }

  /**
   A boot resolves a versioned index other than ours iff it is in mode on, no legacy branch applies, and some other
   index is sought, on every master and compatible; then it records that and touches nothing. Otherwise it resolves
   ours or the unversioned one, and whatever it builds leaves ours on every master.
   */
  lemma AdoptsExactly(env: Env, c: Cluster, listing: seq<string>)
    requires c.nodes != []
    ensures var r, own := Boot(env, c, listing), NameFor(env.newHash);
            && (r.resolved != "idx:sens" && r.resolved != own
                <==> !TakesBase(c) && !HasLegacyTag(c)
                     && exists s :: Keeps(env, c, listing, s) && NameFor(s) != own)
            && (forall s | r.resolved == NameFor(s) != own && Keeps(env, c, listing, s) ::
                  r == Outcome(Cluster(Some(s), c.nodes), NameFor(s), 0))
            && (r.commands > 0 ==> r.resolved == own && OnEveryMaster(r.cluster, own)
                                   && r.cluster.hash == Some(env.newHash))
  {
    var r, own := Boot(env, c, listing), NameFor(env.newHash);
    TakingBase(env, c, listing);
    if !TakesBase(c) {
      if HasLegacyTag(c) {
        LegacyTagged(env, c, listing);
      } else {
        Versioned(env, c, listing);
        VersionedAdopts(env, c, listing);
      }
    }
    if r.commands > 0 { BuiltEverywhere(env, c, listing); }
  }

  lemma NotBase(hash: string)
    ensures NameFor(hash) != "idx:sens"
  {
    NamesAgree(hash);
    VersionedIsNotBase(hash);
  }

  lemma VersionedAdopts(env: Env, c: Cluster, listing: seq<string>)
    requires c.nodes != [] && !TakesBase(c) && !HasLegacyTag(c)
    ensures var r, own := Boot(env, c, listing), NameFor(env.newHash);
            r.resolved != "idx:sens" && r.resolved != own
            <==> exists s :: Keeps(env, c, listing, s) && NameFor(s) != own
  {
    var r, own := Boot(env, c, listing), NameFor(env.newHash);
    Versioned(env, c, listing);
    if s :| Keeps(env, c, listing, s) && NameFor(s) != own {
      NotBase(s);
    }
  }

  lemma BuiltEverywhere(env: Env, c: Cluster, listing: seq<string>)
    requires c.nodes != [] && Boot(env, c, listing).commands > 0
    ensures var r, own := Boot(env, c, listing), NameFor(env.newHash);
            r.resolved == own && OnEveryMaster(r.cluster, own) && r.cluster.hash == Some(env.newHash)
  {
    var r, own := Boot(env, c, listing), NameFor(env.newHash);
    TakingBase(env, c, listing);
    if HasLegacyTag(c) {
      LegacyTagged(env, c, listing);
    } else {
      Versioned(env, c, listing);
      if s :| Keeps(env, c, listing, s) {}
    }
    forall node | node in r.cluster.nodes ensures own in node {
      var i :| 0 <= i < |r.cluster.nodes| && r.cluster.nodes[i] == node;
    }
  }
}
