/**
 * Identity mapping: turning platform references (`user:<email with @ as _>`,
 * `group:<name>`) into GoodData principal ids, through a lookup table built from
 * the platform's full user or group list.
 */
module Identity {
  import opened Wrappers
  import opened Text

  datatype CatalogUser = CatalogUser(id: string, email: Option<string>)

  datatype CatalogUserGroup = CatalogUserGroup(id: string, name: Option<string>)

  /** A principal's lookup key (`None` when it lacks the identifying attribute) and its native id. */
  datatype KeyedId = KeyedId(key: Option<string>, id: string)

  /** The reference a user is known by: `user:` and the email with `@` replaced by `_`. */
  function UserKey(email: string): string { "user:" + Replace(email, '@', '_') }

  /** The reference a group is known by: `group:` and its name. */
  function GroupKey(name: string): string { "group:" + name }

  /** Each user as its reference (when it has an e-mail) and its id, in catalogue order. */
  function UserEntries(users: seq<CatalogUser>): seq<KeyedId>
  {
    seq(|users|, i requires 0 <= i < |users| =>
      KeyedId(if users[i].email.Some? then Some(UserKey(users[i].email.value)) else None, users[i].id))
  }

  /** Each group as its reference (when it has a name) and its id, in catalogue order. */
  function GroupEntries(groups: seq<CatalogUserGroup>): seq<KeyedId>
  {
    seq(|groups|, i requires 0 <= i < |groups| =>
      KeyedId(if groups[i].name.Some? then Some(GroupKey(groups[i].name.value)) else None, groups[i].id))
  }

  /**
   * The lookup table, filled in list order: entries without a key are skipped, and
   * on a key collision the later entry overwrites the earlier one.
   */
  function IndexTable(entries: seq<KeyedId>): (t: map<string, string>)
    decreases |entries|
  {
    if entries == [] then map[]
    else
      var n := |entries| - 1;
      var t := IndexTable(entries[..n]);
      var e := entries[n];
      assert entries == entries[..n] + [e];
      if e.key.Some? then t[e.key.value := e.id] else t
  }

  /** A key is in the table exactly when some entry carries it. */
  lemma {:induction false} IndexTableKeys(entries: seq<KeyedId>, k: string)
    ensures k in IndexTable(entries) <==> exists i :: 0 <= i < |entries| && entries[i].key == Some(k)
    decreases |entries|
  {
    if entries != [] {
      var n := |entries| - 1;
      IndexTableKeys(entries[..n], k);
      if k in IndexTable(entries[..n]) {
        var i :| 0 <= i < n && entries[..n][i].key == Some(k);
        assert entries[i].key == Some(k);
      }
      if exists i :: 0 <= i < |entries| && entries[i].key == Some(k) {
        var i :| 0 <= i < |entries| && entries[i].key == Some(k);
        if i < n {
          assert entries[..n][i].key == Some(k);
        }
      }
    }
  }

  /** Every mapping of the table comes from one of the entries. */
  lemma {:induction false} IndexTableFromEntries(entries: seq<KeyedId>, k: string)
    requires k in IndexTable(entries)
    ensures KeyedId(Some(k), IndexTable(entries)[k]) in entries
    decreases |entries|
  {
    var n := |entries| - 1;
    assert entries == entries[..n] + [entries[n]];
    if entries[n].key != Some(k) {
      IndexTableFromEntries(entries[..n], k);
    }
  }

  /** The table maps a key to the id of the LAST entry that carries it. */
  lemma {:induction false} IndexTableLastWins(entries: seq<KeyedId>, i: nat, k: string)
    requires i < |entries| && entries[i].key == Some(k)
    requires forall j :: i < j < |entries| ==> entries[j].key != Some(k)
    ensures k in IndexTable(entries) && IndexTable(entries)[k] == entries[i].id
    decreases |entries|
  {
    var n := |entries| - 1;
    if i < n {
      forall j | i < j < n ensures entries[..n][j].key != Some(k) {
        assert entries[..n][j] == entries[j];
      }
      IndexTableLastWins(entries[..n], i, k);
    }
  }

  /** The table `map_users` builds from the platform's users. */
  function UserTable(users: seq<CatalogUser>): map<string, string> { IndexTable(UserEntries(users)) }

  /** The table `map_groups` builds from the platform's groups. */
  function GroupTable(groups: seq<CatalogUserGroup>): map<string, string> { IndexTable(GroupEntries(groups)) }

  // ---------------------------------------------------------------- resolving references

  /** One entry of the dictionary `map_users`/`map_groups` return: a reference and its id, or `None`. */
  datatype Resolution = Resolution(reference: string, id: Option<string>)

  /** The references of a resolution list, in order. */
  function References(rs: seq<Resolution>): seq<string>
  {
    seq(|rs|, i requires 0 <= i < |rs| => rs[i].reference)
  }

  /** `table.get(ref)`. */
  function Lookup(t: map<string, string>, ref: string): Option<string>
  {
    if ref in t then Some(t[ref]) else None
  }

  /**
   * The dictionary `map_users`/`map_groups` return, in insertion order: one entry per
   * distinct requested reference, placed at its first occurrence, mapped to its id
   * in the table or to `None`.
   */
  function Resolve(t: map<string, string>, refs: seq<string>): (rs: seq<Resolution>)
    ensures forall r :: r in References(rs) <==> r in refs
    ensures NoDuplicates(References(rs))
    ensures forall i :: 0 <= i < |rs| ==> rs[i].id == Lookup(t, rs[i].reference)
    decreases |refs|
  {
    if refs == [] then []
    else
      var n := |refs| - 1;
      var prev := Resolve(t, refs[..n]);
      var r := refs[n];
      assert refs == refs[..n] + [r];
      if r in References(prev) then prev
      else
        var rs := prev + [Resolution(r, Lookup(t, r))];
        assert References(rs) == References(prev) + [r];
        rs
  }

  /** `mapping.get(ref)`: the id recorded for the reference, `None` when it is unmapped or absent. */
  function Get(rs: seq<Resolution>, ref: string): Option<string>
    decreases |rs|
  {
    if rs == [] then None
    else if rs[0].reference == ref then rs[0].id
    else Get(rs[1..], ref)
  }

  /** Resolution is total: every requested reference gets exactly what the table says about it. */
  lemma {:induction false} GetResolve(t: map<string, string>, refs: seq<string>, ref: string)
    ensures Get(Resolve(t, refs), ref) == Lookup(t, ref) || (ref !in refs && Get(Resolve(t, refs), ref) == None)
    ensures ref in refs ==> Get(Resolve(t, refs), ref) == Lookup(t, ref)
  {
    var rs := Resolve(t, refs);
    GetFirst(rs, ref);
    if ref in refs {
      assert ref in References(rs);
    } else {
      assert ref !in References(rs);
    }
  }

  lemma {:induction false} GetFirst(rs: seq<Resolution>, ref: string)
    ensures ref !in References(rs) ==> Get(rs, ref) == None
    ensures ref in References(rs) ==> exists i :: 0 <= i < |rs| && rs[i].reference == ref && Get(rs, ref) == rs[i].id
    decreases |rs|
  {
    if rs != [] {
      GetFirst(rs[1..], ref);
      assert References(rs) == [rs[0].reference] + References(rs[1..]);
      if rs[0].reference == ref {
        assert rs[0].reference == ref && Get(rs, ref) == rs[0].id;
      } else if ref in References(rs[1..]) {
        var i :| 0 <= i < |rs[1..]| && rs[1..][i].reference == ref && Get(rs[1..], ref) == rs[1..][i].id;
        assert rs[i + 1] == rs[1..][i];
      }
    }
  }

  /** `[v for k, v in mapping.items() if v is not None]`: the ids found, in mapping order. */
  function ResolvedIds(rs: seq<Resolution>): (ids: seq<string>)
    ensures forall x :: x in ids <==> exists i :: 0 <= i < |rs| && rs[i].id == Some(x)
    decreases |rs|
  {
    if rs == [] then []
    else
      var rest := ResolvedIds(rs[1..]);
      assert forall i :: 0 < i < |rs| ==> rs[i] == rs[1..][i - 1];
      if rs[0].id.Some? then [rs[0].id.value] + rest else rest
  }

  /** `[k for k, v in mapping.items() if v is None]`: the references not found, in mapping order. */
  function UnresolvedRefs(rs: seq<Resolution>): (refs: seq<string>)
    ensures forall x :: x in refs <==> exists i :: 0 <= i < |rs| && rs[i].reference == x && rs[i].id.None?
    decreases |rs|
  {
    if rs == [] then []
    else
      var rest := UnresolvedRefs(rs[1..]);
      assert forall i :: 0 < i < |rs| ==> rs[i] == rs[1..][i - 1];
      if rs[0].id.None? then [rs[0].reference] + rest else rest
  }

  /** Resolution splits the references into the ids of the known ones and the unknown references themselves. */
  lemma ResolutionSplits(t: map<string, string>, refs: seq<string>)
    ensures forall x :: x in UnresolvedRefs(Resolve(t, refs)) <==> x in refs && x !in t
    ensures forall x :: x in ResolvedIds(Resolve(t, refs)) <==> exists r :: r in refs && r in t && t[r] == x
  {
    forall x
      ensures x in UnresolvedRefs(Resolve(t, refs)) <==> x in refs && x !in t
      ensures x in ResolvedIds(Resolve(t, refs)) <==> exists r :: r in refs && r in t && t[r] == x
    {
      UnresolvedExactlyUnknown(t, refs, x);
      ResolvedExactlyKnown(t, refs, x);
    }
  }

  /** A requested reference is reported unmapped exactly when the table has no entry for it. */
  lemma UnresolvedExactlyUnknown(t: map<string, string>, refs: seq<string>, x: string)
    ensures x in UnresolvedRefs(Resolve(t, refs)) <==> x in refs && x !in t
  {
    var rs := Resolve(t, refs);
    if x in refs && x !in t {
      assert x in References(rs);
      var i :| 0 <= i < |rs| && References(rs)[i] == x;
      assert rs[i].reference == x && rs[i].id.None?;
    }
  }

  /** The ids granted are exactly the table's ids for the requested references that it knows. */
  lemma ResolvedExactlyKnown(t: map<string, string>, refs: seq<string>, x: string)
    ensures x in ResolvedIds(Resolve(t, refs)) <==> exists r :: r in refs && r in t && t[r] == x
  {
    var rs := Resolve(t, refs);
    if exists r :: r in refs && r in t && t[r] == x {
      var r :| r in refs && r in t && t[r] == x;
      assert r in References(rs);
      var i :| 0 <= i < |rs| && References(rs)[i] == r;
      assert rs[i].id == Some(x);
    }
    if x in ResolvedIds(rs) {
      var i :| 0 <= i < |rs| && rs[i].id == Some(x);
      assert References(rs)[i] in refs;
    }
  }

  /**
   * What a user reference maps to: nothing unless some user with an email has that
   * key; otherwise the id of the last such user in the platform's list.
   */
  lemma UserReferenceMapping(users: seq<CatalogUser>, ref: string)
    ensures Lookup(UserTable(users), ref).Some? <==>
      exists i :: 0 <= i < |users| && users[i].email.Some? && UserKey(users[i].email.value) == ref
  {
    var es := UserEntries(users);
    IndexTableKeys(es, ref);
    if exists i :: 0 <= i < |users| && users[i].email.Some? && UserKey(users[i].email.value) == ref {
      var i :| 0 <= i < |users| && users[i].email.Some? && UserKey(users[i].email.value) == ref;
      assert es[i].key == Some(ref);
    }
  }

  /** Of several users sharing a key, the last one in the platform's list is the one mapped. */
  lemma UserReferenceLastWins(users: seq<CatalogUser>, i: nat, email: string)
    requires i < |users| && users[i].email == Some(email)
    requires forall j :: i < j < |users| && users[j].email.Some? ==> UserKey(users[j].email.value) != UserKey(email)
    ensures Lookup(UserTable(users), UserKey(email)) == Some(users[i].id)
  {
    var es := UserEntries(users);
    forall j | i < j < |es| ensures es[j].key != Some(UserKey(email)) {
    }
    IndexTableLastWins(es, i, UserKey(email));
  }

  /**
   * What a group reference maps to: nothing unless some named group has that key;
   * otherwise the id of the last such group in the platform's list.
   */
  lemma GroupReferenceMapping(groups: seq<CatalogUserGroup>, ref: string)
    ensures Lookup(GroupTable(groups), ref).Some? <==>
      exists i :: 0 <= i < |groups| && groups[i].name.Some? && GroupKey(groups[i].name.value) == ref
  {
    var es := GroupEntries(groups);
    IndexTableKeys(es, ref);
    if exists i :: 0 <= i < |groups| && groups[i].name.Some? && GroupKey(groups[i].name.value) == ref {
      var i :| 0 <= i < |groups| && groups[i].name.Some? && GroupKey(groups[i].name.value) == ref;
      assert es[i].key == Some(ref);
    }
  }

  /** Of several groups sharing a name, the last one in the platform's list is the one mapped. */
  lemma GroupReferenceLastWins(groups: seq<CatalogUserGroup>, i: nat, name: string)
    requires i < |groups| && groups[i].name == Some(name)
    requires forall j :: i < j < |groups| && groups[j].name.Some? ==> groups[j].name.value != name
    ensures Lookup(GroupTable(groups), GroupKey(name)) == Some(groups[i].id)
  {
    var es := GroupEntries(groups);
    forall j | i < j < |es| ensures es[j].key != Some(GroupKey(name)) {
      if groups[j].name.Some? {
        assert GroupKey(groups[j].name.value)[6..] == groups[j].name.value;
      }
    }
    IndexTableLastWins(es, i, GroupKey(name));
  }
}
