/**
 The index step of the api's bootstrap: which index a boot settles on, given the stored
 schema hash, the indexes on every master and their document counts. No command fails and
 `force` is off; the boot client's own queries are answered by the first master.
 */
module Bootstrap {
  import opened Json

  const BASE_INDEX_NAME := "idx:sens"

  const VERSIONED_PREFIX := "idx:sens:v"

  const LEGACY_HASH_PREFIX := "legacy:"

  const HASH_PREFIX_LEN := 7

  function HashPrefix(hash: string): string { if |hash| <= HASH_PREFIX_LEN then hash else hash[..HASH_PREFIX_LEN] }

  function VersionedIndexName(hash: string): string { VERSIONED_PREFIX + HashPrefix(hash) }

  lemma VersionedIsNotBase(hash: string)
    ensures VersionedIndexName(hash) != BASE_INDEX_NAME
  {
    assert |VersionedIndexName(hash)| >= |VERSIONED_PREFIX| > |BASE_INDEX_NAME|;
  }

  predicate IsLegacy(hash: string) { LEGACY_HASH_PREFIX <= hash }

  lemma LegacyOf(hash: string)
    ensures IsLegacy(LEGACY_HASH_PREFIX + hash) && (LEGACY_HASH_PREFIX + hash)[|LEGACY_HASH_PREFIX|..] == hash
  {
  }

  /** The indexes of one master with their document counts. */
  type Node = map<string, nat>

  datatype Cluster = Cluster(hash: Option<string>, nodes: seq<Node>)

  datatype AdoptionMode = On | Off | WarnOnly

  /** `built` is the count a newly created index reports; `compatible` compares a foreign index's fields with ours. */
  datatype Env = Env(newHash: string, mode: AdoptionMode, compatible: string -> bool, built: nat)

  datatype Outcome = Outcome(cluster: Cluster, resolved: string, commands: nat)

  // ------------------------------------------------------------ probes

  predicate PresentOnAll(nodes: seq<Node>, name: string) { forall i | 0 <= i < |nodes| :: name in nodes[i] }

  method IndexPresentOnAll(nodes: seq<Node>, name: string) returns (r: bool)
    ensures r == PresentOnAll(nodes, name)
  {
    for i := 0 to |nodes|
      invariant forall j | 0 <= j < i :: name in nodes[j]
    {
      if name !in nodes[i] { return false; }
    }
    return true;
  }

  function DocCount(c: Cluster, name: string): Option<nat>
    requires c.nodes != []
  {
    if name in c.nodes[0] then Some(c.nodes[0][name]) else None
  }

  predicate HasDocs(c: Cluster, name: string)
    requires c.nodes != []
  {
    DocCount(c, name).Some? && DocCount(c, name).value > 0
  }

  /** The first versioned index in the listing that is not ours, by its suffix. */
  function ForeignOf(listing: seq<string>, newName: string): Option<string> {
    if listing == [] then None
    else if VERSIONED_PREFIX <= listing[0] && listing[0] != newName then Some(listing[0][|VERSIONED_PREFIX|..])
    else ForeignOf(listing[1..], newName)
  }

  method FindForeign(listing: seq<string>, newName: string) returns (r: Option<string>)
    ensures r == ForeignOf(listing, newName)
  {
    for i := 0 to |listing|
      invariant ForeignOf(listing, newName) == ForeignOf(listing[i..], newName)
    {
      assert listing[i..][1..] == listing[i + 1..];
      if VERSIONED_PREFIX <= listing[i] && listing[i] != newName { return Some(listing[i][|VERSIONED_PREFIX|..]); }
    }
    return None;
  }

  // ------------------------------------------------------------ rebuilding

  predicate Drops(newName: string, oldName: Option<string>) { oldName.Some? && oldName.value != newName }

  function RebuiltNode(node: Node, newName: string, oldName: Option<string>, built: nat): Node {
    var kept := if Drops(newName, oldName) then node - {oldName.value} else node;
    if newName in kept then kept else kept[newName := built]
  }

  function Rebuilt(nodes: seq<Node>, newName: string, oldName: Option<string>, built: nat): seq<Node> {
    seq(|nodes|, i requires 0 <= i < |nodes| => RebuiltNode(nodes[i], newName, oldName, built))
  }

  function RebuildCommands(nodes: seq<Node>, newName: string, oldName: Option<string>): nat {
    |nodes| * if Drops(newName, oldName) then 2 else 1
  }

  method RunIndexRebuild(nodes: seq<Node>, newName: string, oldName: Option<string>, built: nat)
    returns (r: seq<Node>, commands: nat)
    ensures r == Rebuilt(nodes, newName, oldName, built) && commands == RebuildCommands(nodes, newName, oldName)
  {
    r, commands := [], 0;
    for i := 0 to |nodes|
      invariant r == Rebuilt(nodes, newName, oldName, built)[..i]
      invariant commands == RebuildCommands(nodes[..i], newName, oldName)
    {
      var node := nodes[i];
      if oldName.Some? && oldName.value != newName {
        node := node - {oldName.value};
        commands := commands + 1;
      }
      if newName !in node { node := node[newName := built]; }
      commands := commands + 1;
      r := r + [node];
      assert |nodes[..i + 1]| == |nodes[..i]| + 1;
    }
    assert nodes[..|nodes|] == nodes;
  }

  // ------------------------------------------------------------ the decision tree

  /** The recorded versioned index is empty while the unversioned one still holds the rows. */
  predicate Stranded(c: Cluster)
    requires c.nodes != []
  {
    c.hash.Some? && !IsLegacy(c.hash.value) && DocCount(c, VersionedIndexName(c.hash.value)) == Some(0)
    && HasDocs(c, BASE_INDEX_NAME)
  }

  function Rebuild(env: Env, c: Cluster, oldName: Option<string>): Outcome {
    var newName := VersionedIndexName(env.newHash);
    Outcome(Cluster(Some(env.newHash), Rebuilt(c.nodes, newName, oldName, env.built)), newName,
        RebuildCommands(c.nodes, newName, oldName))
  }

  function Candidate(env: Env, hash: Option<string>, listing: seq<string>): Option<string> {
    if hash.Some? then (if hash.value != env.newHash then hash else None)
    else if env.mode != Off then ForeignOf(listing, VersionedIndexName(env.newHash)) else None
  }

  predicate Adoptable(env: Env, nodes: seq<Node>, foreign: string) {
    foreign != env.newHash && env.mode == On && PresentOnAll(nodes, VersionedIndexName(foreign))
    && env.compatible(VersionedIndexName(foreign))
  }

  function LegacyBranch(env: Env, c: Cluster): Outcome
    requires c.hash.Some? && IsLegacy(c.hash.value)
  {
    if c.hash.value[|LEGACY_HASH_PREFIX|..] == env.newHash && PresentOnAll(c.nodes, BASE_INDEX_NAME) then
      Outcome(c, BASE_INDEX_NAME, 0)
    else Rebuild(env, c, Some(BASE_INDEX_NAME))
  }

  function VersionedBranch(env: Env, c: Cluster, listing: seq<string>): Outcome {
    if c.hash == Some(env.newHash) && PresentOnAll(c.nodes, VersionedIndexName(env.newHash)) then
      Outcome(c, VersionedIndexName(env.newHash), 0)
    else
      var foreign := Candidate(env, c.hash, listing);
      if foreign.Some? && Adoptable(env, c.nodes, foreign.value) then
        Outcome(c.(hash := foreign), VersionedIndexName(foreign.value), 0)
      else Rebuild(env, c, if c.hash.Some? then Some(VersionedIndexName(c.hash.value)) else None)
  }

  /** An empty hash key reads as no hash key. */
  function ReadHash(hash: Option<string>): Option<string> { if hash == Some("") then None else hash }

  /** One boot. `listing` is the answer to FT._LIST, should it be asked. */
  function Boot(env: Env, c: Cluster, listing: seq<string>): Outcome
    requires c.nodes != []
  {
    var c0 := c.(hash := ReadHash(c.hash));
    var c1 := if Stranded(c0) then c0.(hash := None) else c0;
    if c1.hash.None? && HasDocs(c1, BASE_INDEX_NAME) then
      Outcome(c1.(hash := Some(LEGACY_HASH_PREFIX + env.newHash)), BASE_INDEX_NAME, 0)
    else if c1.hash.Some? && IsLegacy(c1.hash.value) then LegacyBranch(env, c1)
    else VersionedBranch(env, c1, listing)
  }

  method BootstrapIndex(env: Env, c: Cluster, listing: seq<string>) returns (r: Outcome)
    requires c.nodes != []
    ensures r == Boot(env, c, listing)
  {
    var newName := VersionedIndexName(env.newHash);
    var nodes, hash, resolved, skipped, commands := c.nodes, ReadHash(c.hash), newName, false, 0;
    if hash.Some? && !IsLegacy(hash.value) && DocCount(c, VersionedIndexName(hash.value)) == Some(0)
        && HasDocs(c, BASE_INDEX_NAME) {
      hash := None;
    }
    var oldHash := hash;
    if oldHash.None? && HasDocs(c, BASE_INDEX_NAME) {
      hash := Some(LEGACY_HASH_PREFIX + env.newHash);
      resolved, skipped := BASE_INDEX_NAME, true;
    }
    if !skipped && oldHash.Some? && IsLegacy(oldHash.value) {
      var present := IndexPresentOnAll(nodes, BASE_INDEX_NAME);
      if oldHash.value[|LEGACY_HASH_PREFIX|..] == env.newHash && present {
        resolved := BASE_INDEX_NAME;
      } else {
        nodes, commands := RunIndexRebuild(nodes, newName, Some(BASE_INDEX_NAME), env.built);
        hash := Some(env.newHash);
      }
    } else if !skipped {
      var present := IndexPresentOnAll(nodes, newName);
      if oldHash != Some(env.newHash) || !present {
        var foreign: Option<string> := None;
        if oldHash.Some? && oldHash.value != env.newHash {
          foreign := oldHash;
        } else if oldHash.None? && env.mode != Off {
          foreign := FindForeign(listing, newName);
        }
        var adopted := false;
        if foreign.Some? && foreign.value != env.newHash && env.mode != Off {
          present := IndexPresentOnAll(nodes, VersionedIndexName(foreign.value));
          if present && env.compatible(VersionedIndexName(foreign.value)) && env.mode == On {
            hash, resolved, adopted := foreign, VersionedIndexName(foreign.value), true;
          }
        }
        if !adopted {
          nodes, commands := RunIndexRebuild(nodes, newName,
              if oldHash.Some? then Some(VersionedIndexName(oldHash.value)) else None, env.built);
          hash := Some(env.newHash);
        }
      }
    }
    r := Outcome(Cluster(hash, nodes), resolved, commands);
  }

  // ------------------------------------------------------------ settled clusters

  predicate Plain(hash: string) { hash != "" && !IsLegacy(hash) }

  ghost predicate EnvOk(env: Env) { Plain(env.newHash) }

  /** The index readers resolve from the hash key. */
  function SensIndexName(hash: Option<string>): string {
    if ReadHash(hash).None? || IsLegacy(hash.value) then BASE_INDEX_NAME else VersionedIndexName(hash.value)
  }

  /** Booting changes nothing, issues nothing, and resolves what readers resolve. */
  ghost predicate Settled(env: Env, c: Cluster) {
    c.nodes != [] && forall listing :: Boot(env, c, listing) == Outcome(c, SensIndexName(c.hash), 0)
  }

  /** Adopted the unversioned index. */
  ghost predicate OnLegacy(env: Env, c: Cluster) { c.hash == Some(LEGACY_HASH_PREFIX + env.newHash) }

  /** On a versioned index, ours or a compatible foreign one. */
  ghost predicate OnVersioned(env: Env, c: Cluster) {
    && c.hash.Some? && Plain(c.hash.value)
    && (if c.hash.value == env.newHash then PresentOnAll(c.nodes, VersionedIndexName(env.newHash))
       else Adoptable(env, c.nodes, c.hash.value))
  }

  lemma RebuildLands(env: Env, c: Cluster, oldName: Option<string>)
    requires EnvOk(env)
    ensures OnVersioned(env, Rebuild(env, c, oldName).cluster)
  {
  }

  lemma LegacySettles(env: Env, c: Cluster)
    requires EnvOk(env) && c.nodes != [] && OnLegacy(env, c) && PresentOnAll(c.nodes, BASE_INDEX_NAME)
    ensures Settled(env, c)
  {
    LegacyOf(env.newHash);
  }

  /** A legacy tag without its index everywhere is migrated, and the unversioned index is gone for good. */
  lemma LegacyMigrates(env: Env, c: Cluster, listing: seq<string>)
    requires EnvOk(env) && c.nodes != [] && OnLegacy(env, c) && !PresentOnAll(c.nodes, BASE_INDEX_NAME)
    ensures Settled(env, Boot(env, c, listing).cluster)
  {
    LegacyOf(env.newHash);
    VersionedIsNotBase(env.newHash);
    var c1 := Boot(env, c, listing).cluster;
    assert BASE_INDEX_NAME !in c1.nodes[0];
    VersionedSettles(env, c1);
  }

  lemma VersionedSettles(env: Env, c: Cluster)
    requires EnvOk(env) && c.nodes != [] && OnVersioned(env, c) && !Stranded(c)
    ensures Settled(env, c)
  {
  }

  /** A stranded versioned index is given up for the populated one, without touching either. */
  lemma StrandedRecovers(env: Env, c: Cluster, listing: seq<string>)
    requires EnvOk(env) && c.nodes != [] && OnVersioned(env, c) && Stranded(c)
    ensures Boot(env, c, listing) == Outcome(c.(hash := Some(LEGACY_HASH_PREFIX + env.newHash)), BASE_INDEX_NAME, 0)
  {
  }
}
