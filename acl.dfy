/**
 * Pipeline access control (`pipelines/acl.py`): a user belongs to every ACL
 * group whose rules list the user's id or role, and may run a pipeline whose
 * manifest entry names one of those groups. Membership is purely additive.
 */
module Acl {
  import opened Wrappers
  import opened Values
  import opened Seqs
  import opened Manifest
  import TimedCache

  type Group = string

  /** The value stored under one group in `acl.json`. */
  datatype Rules =
    | Rules(userIds: seq<string>, roles: seq<string>)  // a mapping; a missing list reads as []
    | NotMapping                                        // any other JSON value

  /** The ACL dict, in its key (insertion) order. */
  type AclRules = seq<(Group, Rules)>

  /** What reading `acl.json` produced. */
  datatype AclFile =
    | Dict(rules: AclRules)   // parsed to a JSON object
    | OtherJson               // parsed, but not to an object
    | Unreadable              // missing file or invalid JSON

  /** A JSON object has no key twice. */
  predicate KeysDistinct(acl: AclRules) {
    forall i, j :: 0 <= i < j < |acl| ==> acl[i].0 != acl[j].0
  }

  /** The ACL the loader stores after a re-read: `{}` unless the file holds an object. */
  function Reread(file: AclFile): AclRules {
    if file.Dict? then file.rules else []
  }

  /** `not user`: no user at all, or an empty dict. */
  predicate IsFalsy(user: Option<UserRecord>) {
    user.None? || |user.value| == 0
  }

  /** The rules of one group admit the user with this id and role. */
  predicate Admits(rules: Rules, userId: string, role: string) {
    rules.Rules? && (userId in rules.userIds || role in rules.roles)
  }

  /** The groups, in ACL order, whose rules admit the user. */
  function MatchingGroups(acl: AclRules, userId: string, role: string): (groups: seq<Group>)
    ensures forall g :: g in groups <==> exists i :: 0 <= i < |acl| && acl[i].0 == g && Admits(acl[i].1, userId, role)
    decreases |acl|
  {
    if acl == [] then []
    else
      var last := acl[|acl| - 1];
      MatchingGroups(acl[..|acl| - 1], userId, role) + (if Admits(last.1, userId, role) then [last.0] else [])
  }

  /** `allowed_groups_for_user(user)` against the given ACL. */
  function AllowedGroups(user: Option<UserRecord>, acl: AclRules): (groups: seq<Group>)
    ensures IsFalsy(user) ==> groups == []
    ensures forall g :: g in groups <==>
      !IsFalsy(user) && (exists i :: 0 <= i < |acl| && acl[i].0 == g &&
                                     Admits(acl[i].1, UserField(user.value, "id"), UserField(user.value, "role")))
  {
    if IsFalsy(user) then [] else MatchingGroups(acl, UserField(user.value, "id"), UserField(user.value, "role"))
  }

  /** The entry's `group` is one of the allowed groups (`None` never is). */
  predicate GroupAllowed(e: Entry, groups: seq<Group>) {
    e.group.Some? && e.group.value in groups
  }

  /** Some manifest entry has id `pipeId` and an allowed group. */
  predicate PipeAllowed(pipeId: string, groups: seq<Group>, manifest: seq<Entry>) {
    exists i :: 0 <= i < |manifest| && manifest[i].id == Some(pipeId) && GroupAllowed(manifest[i], groups)
  }

  /** The manifest entries whose group is allowed, in manifest order. */
  function FilterManifest(groups: seq<Group>, manifest: seq<Entry>): (r: seq<Entry>)
    ensures forall e :: e in r <==> e in manifest && GroupAllowed(e, groups)
    decreases |manifest|
  {
    if manifest == [] then []
    else
      var last := manifest[|manifest| - 1];
      FilterManifest(groups, manifest[..|manifest| - 1]) + (if GroupAllowed(last, groups) then [last] else [])
  }

  /** The loop of `allowed_groups_for_user`: scan the ACL, appending each admitting group. */
  method CollectGroups(acl: AclRules, userId: string, role: string) returns (groups: seq<Group>)
    ensures groups == MatchingGroups(acl, userId, role)
  {
    groups := [];
    for i := 0 to |acl|
      invariant groups == MatchingGroups(acl[..i], userId, role)
    {
      var (group, rules) := acl[i];
      assert acl[..i + 1][..i] == acl[..i];
      if rules.Rules? {
        if userId in rules.userIds || role in rules.roles {
          groups := groups + [group];
        }
      }
    }
    assert acl[..|acl|] == acl;
  }

  /** The loop of `is_pipe_allowed`: the first entry with this id and an allowed group ends the scan. */
  method FindAllowedEntry(pipeId: string, allowed: set<Group>, manifest: seq<Entry>) returns (found: bool)
    ensures found <==> exists i :: 0 <= i < |manifest| && manifest[i].id == Some(pipeId) &&
                                   manifest[i].group.Some? && manifest[i].group.value in allowed
  {
    for i := 0 to |manifest|
      invariant forall j :: 0 <= j < i ==>
        !(manifest[j].id == Some(pipeId) && manifest[j].group.Some? && manifest[j].group.value in allowed)
    {
      var entry := manifest[i];
      if entry.id == Some(pipeId) && entry.group.Some? && entry.group.value in allowed {
        return true;
      }
    }
    return false;
  }

  /** `load_acl()`: the ACL cached for 60 seconds; a failed or non-object read yields `{}`. */
  method LoadAcl(cache: TimedCache.Cache<(Group, Rules)>, now: real, file: AclFile) returns (acl: AclRules)
    modifies cache
    ensures (acl, cache.State()) == TimedCache.Lookup(old(cache.State()), now, Reread(file))
    ensures acl == cache.data
  {
    acl := cache.Get(now, Reread(file));
  }

  /**
   * `allowed_groups_for_user(user)`. A falsy user is answered before the ACL
   * is loaded, so the cache is left alone.
   */
  method AllowedGroupsForUser(cache: TimedCache.Cache<(Group, Rules)>, now: real, file: AclFile, user: Option<UserRecord>)
    returns (groups: seq<Group>)
    modifies cache
    ensures groups == AllowedGroups(user, cache.data)
    ensures IsFalsy(user) ==> unchanged(cache)
    ensures !IsFalsy(user) ==> cache.State() == TimedCache.Lookup(old(cache.State()), now, Reread(file)).1
  {
    if IsFalsy(user) {
      return [];
    }
    var userId := UserField(user.value, "id");
    var role := UserField(user.value, "role");
    var acl := LoadAcl(cache, now, file);
    groups := CollectGroups(acl, userId, role);
  }

  /** `is_pipe_allowed(pipe_id, user, manifest)`. */
  method IsPipeAllowed(cache: TimedCache.Cache<(Group, Rules)>, now: real, file: AclFile,
                       pipeId: string, user: Option<UserRecord>, manifest: seq<Entry>)
    returns (allowed: bool)
    modifies cache
    ensures allowed == PipeAllowed(pipeId, AllowedGroups(user, cache.data), manifest)
    ensures IsFalsy(user) ==> unchanged(cache) && !allowed
    ensures !IsFalsy(user) ==> cache.State() == TimedCache.Lookup(old(cache.State()), now, Reread(file)).1
  {
    var groups := AllowedGroupsForUser(cache, now, file, user);
    var allowedGroups := set g | g in groups;
    allowed := FindAllowedEntry(pipeId, allowedGroups, manifest);
  }

  /** `filter_manifest_for_user(user, manifest)`. */
  method FilterManifestForUser(cache: TimedCache.Cache<(Group, Rules)>, now: real, file: AclFile,
                               user: Option<UserRecord>, manifest: seq<Entry>)
    returns (visible: seq<Entry>)
    modifies cache
    ensures visible == FilterManifest(AllowedGroups(user, cache.data), manifest)
    ensures IsFalsy(user) ==> unchanged(cache) && visible == []
    ensures !IsFalsy(user) ==> cache.State() == TimedCache.Lookup(old(cache.State()), now, Reread(file)).1
  {
    var groups := AllowedGroupsForUser(cache, now, file, user);
    visible := FilterManifest(groups, manifest);
    if visible != [] {
      assert visible[0] in visible;
    }
  }

  // ---------------------------------------------------------------- properties

  /** The groups come out in ACL order: a subsequence of the ACL's keys. */
  lemma {:induction false} MatchingGroupsInAclOrder(acl: AclRules, userId: string, role: string)
    ensures IsSubsequence(MatchingGroups(acl, userId, role), Keys(acl))
    decreases |acl|
  {
    if acl != [] {
      var init := acl[..|acl| - 1];
      var last := acl[|acl| - 1];
      var before := MatchingGroups(init, userId, role);
      MatchingGroupsInAclOrder(init, userId, role);
      assert Keys(acl) == Keys(init) + [last.0];
      SubsequenceSnoc(before, Keys(init), last.0);
      if Admits(last.1, userId, role) {
        assert MatchingGroups(acl, userId, role) == before + [last.0];
      } else {
        assert MatchingGroups(acl, userId, role) == before;
      }
    }
  }

  function Keys(acl: AclRules): (ks: seq<Group>)
    ensures |ks| == |acl| && forall i :: 0 <= i < |acl| ==> ks[i] == acl[i].0
  {
    seq(|acl|, i requires 0 <= i < |acl| => acl[i].0)
  }

  /** Each group appears at most once, since a dict's keys are distinct. */
  lemma {:induction false} MatchingGroupsDistinct(acl: AclRules, userId: string, role: string)
    requires KeysDistinct(acl)
    ensures NoDuplicates(MatchingGroups(acl, userId, role))
    decreases |acl|
  {
    if acl != [] {
      var init := acl[..|acl| - 1];
      MatchingGroupsDistinct(init, userId, role);
      var last := acl[|acl| - 1];
      forall g | g in MatchingGroups(init, userId, role)
        ensures g != last.0
      {
        var i :| 0 <= i < |init| && init[i].0 == g && Admits(init[i].1, userId, role);
        assert acl[i] == init[i];
      }
      var before := MatchingGroups(init, userId, role);
      assert NoDuplicates(before);
      if Admits(last.1, userId, role) {
        var gs := before + [last.0];
        assert MatchingGroups(acl, userId, role) == gs;
        forall i, j | 0 <= i < j < |gs|
          ensures gs[i] != gs[j]
        {
          if j < |before| {
            assert gs[i] == before[i] && gs[j] == before[j];
          } else {
            assert gs[i] == before[i] && before[i] in before;
          }
        }
      } else {
        assert MatchingGroups(acl, userId, role) == before;
      }
    }
  }

  /**
   * No deny rules: the groups matched by an ACL extended with more rules
   * are the groups matched by the original followed by those of the extra rules.
   */
  lemma {:induction false} MatchingIsAdditive(acl: AclRules, extra: AclRules, userId: string, role: string)
    ensures MatchingGroups(acl + extra, userId, role) == MatchingGroups(acl, userId, role) + MatchingGroups(extra, userId, role)
    decreases |extra|
  {
    if extra == [] {
      assert acl + extra == acl;
    } else {
      var init := extra[..|extra| - 1];
      MatchingIsAdditive(acl, init, userId, role);
      assert (acl + extra)[..|acl + extra| - 1] == acl + init;
    }
  }

  /** The filtered manifest keeps manifest order. */
  lemma {:induction false} FilterManifestInOrder(groups: seq<Group>, manifest: seq<Entry>)
    ensures IsSubsequence(FilterManifest(groups, manifest), manifest)
    decreases |manifest|
  {
    if manifest != [] {
      var init := manifest[..|manifest| - 1];
      var last := manifest[|manifest| - 1];
      var before := FilterManifest(groups, init);
      FilterManifestInOrder(groups, init);
      assert manifest == init + [last];
      SubsequenceSnoc(before, init, last);
      if GroupAllowed(last, groups) {
        assert FilterManifest(groups, manifest) == before + [last];
      } else {
        assert FilterManifest(groups, manifest) == before;
      }
    }
  }

  /** A pipeline may run exactly when the user's filtered manifest lists its id. */
  lemma AllowedIffListed(pipeId: string, groups: seq<Group>, manifest: seq<Entry>)
    ensures PipeAllowed(pipeId, groups, manifest) <==>
      exists e :: e in FilterManifest(groups, manifest) && e.id == Some(pipeId)
  {
    if PipeAllowed(pipeId, groups, manifest) {
      var i :| 0 <= i < |manifest| && manifest[i].id == Some(pipeId) && GroupAllowed(manifest[i], groups);
      assert manifest[i] in FilterManifest(groups, manifest);
    }
  }

  /** The test's ACL: an id match alone suffices even when the role does not match. */
  lemma IdMatchSuffices()
    ensures AllowedGroups(Some(map["id" := "1", "role" := "user"]),
                          [("group1", Rules(["1"], ["admin"]))]) == ["group1"]
  {
    var acl := [("group1", Rules(["1"], ["admin"]))];
    assert acl[..0] == [];
  }

  /** The test's ACL: a role match alone admits a user to the pipeline of that group. */
  lemma RoleMatchAllowsPipe()
    ensures PipeAllowed("pipe1",
                        AllowedGroups(Some(map["id" := "99", "role" := "admin"]), [("groupA", Rules([], ["admin"]))]),
                        [Entry(Some("pipe1"), None, Some("groupA"))])
  {
    var acl := [("groupA", Rules([], ["admin"]))];
    assert acl[..0] == [];
    var manifest := [Entry(Some("pipe1"), None, Some("groupA"))];
    assert manifest[0].id == Some("pipe1");
  }
}
