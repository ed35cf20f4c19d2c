/** The in-memory store (core/backend/memory_persistence.go): a UUID map, an owner index and an
    append-only log per agent. Records are heap objects here, so that the copies the store makes on
    the way in and on the way out mean something: no caller ever holds a reference to a stored record. */
module MemoryPersistence {
  import opened Prelude
  import opened Records

  /** A *AgentInfo of the source. */
  class Record {
    var info: AgentInfo

    constructor (info: AgentInfo)
      ensures this.info == info
    {
      this.info := info;
    }
  }

  // ---------------------------------------------------------------------
  // The store as a value
  // ---------------------------------------------------------------------

  type Store = map<string, AgentInfo>
  type OwnerIndex = map<string, set<string>>
  type Logs = map<string, seq<ChangeLog>>

  /** What the owner index lists for one owner; a missing key reads as the empty set. */
  function Indexed(index: OwnerIndex, owner: string): set<string> {
    if owner in index then index[owner] else {}
  }

  function IndexPut(index: OwnerIndex, owner: string, uuid: string): OwnerIndex {
    index[owner := Indexed(index, owner) + {uuid}]
  }

  function LogsOf(logs: Logs, uuid: string): seq<ChangeLog> {
    if uuid in logs then logs[uuid] else []
  }

  function LogsAppend(logs: Logs, e: ChangeLog): Logs {
    logs[e.uuid := LogsOf(logs, e.uuid) + [e]]
  }

  function Hits(store: Store, uuids: seq<string>): Store {
    map u | u in uuids && u in store :: store[u]
  }

  /** The index lists an agent under an owner exactly when a scan of the store finds it there. */
  ghost predicate IndexAgrees(store: Store, index: OwnerIndex) {
    forall owner, uuid ::
      uuid in Indexed(index, owner) <==> uuid in store && store[uuid].owner == owner
  }

  /** The stored records carry their own, nonempty keys. */
  ghost predicate KeysAgree(store: Store) {
    forall u :: u in store ==> store[u].uuid == u && |u| > 0
  }

  /** Indexing an agent adds it under its owner, and nothing else. */
  lemma IndexPutAdds(index: OwnerIndex, owner: string, uuid: string, o: string, u: string)
    ensures u in Indexed(IndexPut(index, owner, uuid), o) <==> u in Indexed(index, o) || (o == owner && u == uuid)
  {
  }

  /** An upsert keeps the index exact if and only if it does not move an agent to another owner:
      the old owner's entry is never removed. */
  lemma PutKeepsIndexIff(store: Store, index: OwnerIndex, r: AgentInfo)
    requires IndexAgrees(store, index)
    ensures IndexAgrees(store[r.uuid := r], IndexPut(index, r.owner, r.uuid))
       <==> (r.uuid in store ==> store[r.uuid].owner == r.owner)
  {
    var store', index' := store[r.uuid := r], IndexPut(index, r.owner, r.uuid);
    if r.uuid in store && store[r.uuid].owner != r.owner {
      var was := store[r.uuid].owner;
      assert r.uuid in Indexed(index, was);
      assert r.uuid in Indexed(index', was) && store'[r.uuid].owner != was;
    } else {
      forall owner, uuid
        ensures uuid in Indexed(index', owner) <==> uuid in store' && store'[uuid].owner == owner
      {
        assert uuid in Indexed(index, owner) <==> uuid in store && store[uuid].owner == owner;
      }
    }
  }

  /** A concrete store in which an upsert under a new owner leaves the old owner listing the agent. */
  lemma OwnerChangeBreaksIndex()
    ensures
      var r := AgentInfo("u", "alice", 1, Registered, 0, "pk", "", 0, 0);
      var s0: Store := map["u" := r];
      var i0 := IndexPut(map[], "alice", "u");
      && IndexAgrees(s0, i0)
      && "u" in Indexed(IndexPut(i0, "bob", "u"), "alice")
      && !IndexAgrees(s0["u" := r.(owner := "bob")], IndexPut(i0, "bob", "u"))
  {
    var r := AgentInfo("u", "alice", 1, Registered, 0, "pk", "", 0, 0);
    var s0: Store := map["u" := r];
    var i0 := IndexPut(map[], "alice", "u");
    assert IndexAgrees(map[], map[]);
    PutKeepsIndexIff(map[], map[], r);
    PutKeepsIndexIff(s0, i0, r.(owner := "bob"));
  }

  /** The agents that a full scan finds under an owner. */
  ghost function OwnedBy(store: Store, owner: string): set<string> {
    set u | u in store && store[u].owner == owner
  }

  /** `out` holds exactly the store's records for the given UUIDs, strictly ascending by UUID. */
  ghost predicate Lists(out: seq<AgentInfo>, store: Store, uuids: set<string>)
  {
    && uuids <= store.Keys
    && (forall x :: x in out <==> x.uuid in uuids && x == store[x.uuid])
    && (forall i, j :: 0 <= i < j < |out| ==> LexLess(out[i].uuid, out[j].uuid))
  }

  ghost function Infos(recs: seq<Record>): (s: seq<AgentInfo>)
    reads recs
  {
    seq(|recs|, i requires 0 <= i < |recs| reads recs => recs[i].info)
  }

  method Boxed(infos: seq<AgentInfo>) returns (out: seq<Record>)
    ensures forall r :: r in out ==> fresh(r)
    ensures |out| == |infos| && forall i :: 0 <= i < |out| ==> out[i].info == infos[i]
  {
    out := [];
    for k := 0 to |infos|
      invariant |out| == k
      invariant forall i :: 0 <= i < k ==> fresh(out[i]) && out[i].info == infos[i]
    {
      var cp := new Record(infos[k]);
      out := out + [cp];
    }
  }

  // ---------------------------------------------------------------------
  // The store as an object
  // ---------------------------------------------------------------------

  class MemoryPersistence {
    var agents: map<string, Record>
    var byOwner: OwnerIndex
    var logs: Logs

    /** What reads see. */
    ghost var contents: Store

    /** The record objects that the store has made; no caller holds one. */
    ghost var owned: set<Record>

    ghost predicate Valid()
      reads this, owned
    {
      && (forall u :: u in agents <==> u in contents)
      && (forall u :: u in agents ==> agents[u] in owned && agents[u].info == contents[u])
      && KeysAgree(contents)
      && (forall owner, u :: u in Indexed(byOwner, owner) ==> u in agents)
    }

    constructor ()
      ensures Valid() && contents == map[] && byOwner == map[] && logs == map[] && owned == {}
    {
      agents, byOwner, logs, contents, owned := map[], map[], map[], map[], {};
    }

    method PutAgent(rec: Record?) returns (ok: bool)
      requires Valid()
      modifies this
      ensures Valid()
      ensures ok <==> rec != null && rec.info.uuid != ""
      ensures fresh(owned - old(owned))
      ensures !ok ==> byOwner == old(byOwner) && contents == old(contents)
      ensures ok ==>
        && contents == old(contents)[rec.info.uuid := rec.info]
        && byOwner == IndexPut(old(byOwner), rec.info.owner, rec.info.uuid)
      ensures logs == old(logs)
    {
      if rec == null || rec.info.uuid == "" {
        return false;
      }
      var cp := new Record(rec.info);
      agents := agents[rec.info.uuid := cp];
      contents, owned := contents[rec.info.uuid := rec.info], owned + {cp};
      if rec.info.owner !in byOwner {
        byOwner := byOwner[rec.info.owner := {}];
      }
      byOwner := byOwner[rec.info.owner := byOwner[rec.info.owner] + {rec.info.uuid}];
      ok := true;
      assert byOwner == IndexPut(old(byOwner), rec.info.owner, rec.info.uuid);
      forall owner, u | u in Indexed(byOwner, owner) ensures u in agents {
        IndexPutAdds(old(byOwner), rec.info.owner, rec.info.uuid, owner, u);
      }
    }

    /** null stands for ErrAgentNotFound. */
    method GetAgent(uuid: string) returns (rec: Record?)
      requires Valid()
      ensures rec == null <==> uuid !in contents
      ensures rec != null ==> fresh(rec) && rec.info == contents[uuid]
    {
      if uuid !in agents {
        return null;
      }
      rec := new Record(agents[uuid].info);
    }

    /** The agents indexed under an owner, strictly ascending by UUID, as fresh copies. When the index
        agrees with a scan these are exactly the owner's agents. */
    method ListAgentsByOwner(owner: string) returns (out: seq<Record>)
      requires Valid()
      ensures forall r :: r in out ==> fresh(r)
      ensures Lists(Infos(out), contents, Indexed(byOwner, owner))
      ensures IndexAgrees(contents, byOwner) ==> Lists(Infos(out), contents, OwnedBy(contents, owner))
    {
      var listed := Indexed(byOwner, owner);
      var copies := CopyOut(listed);
      UuidOrder();
      var sorted := SortSlice(copies, (a: AgentInfo, b: AgentInfo) => LexLess(a.uuid, b.uuid));
      SortedDistinct(copies, sorted);
      assert Lists(sorted, contents, listed) by {
        forall u | u in listed ensures contents[u] in sorted { assert contents[u] in copies; }
      }
      out := Boxed(sorted);
      assert Infos(out) == sorted;
      if IndexAgrees(contents, byOwner) {
        assert OwnedBy(contents, owner) == listed;
      }
    }

    /** Collects copies of the listed records in the arbitrary order in which a Go map yields its keys. */
    method CopyOut(listed: set<string>) returns (copies: seq<AgentInfo>)
      requires Valid() && listed <= agents.Keys
      ensures forall x :: x in copies <==> x.uuid in listed && x == contents[x.uuid]
      ensures forall i, j :: 0 <= i < j < |copies| ==> copies[i].uuid != copies[j].uuid
    {
      copies := [];
      var todo := listed;
      ghost var store := contents;
      while todo != {}
        invariant todo <= listed
        invariant forall x :: x in copies <==> x.uuid in listed - todo && x == store[x.uuid]
        invariant forall i, j :: 0 <= i < j < |copies| ==> copies[i].uuid != copies[j].uuid
        decreases |todo|
      {
        var u :| u in todo;
        assert store[u] == agents[u].info && store[u].uuid == u;
        copies := copies + [agents[u].info];
        todo := todo - {u};
      }
    }

    method AppendLog(entry: ChangeLog) returns (ok: bool)
      modifies this`logs
      ensures ok <==> entry.uuid != ""
      ensures logs == if ok then LogsAppend(old(logs), entry) else old(logs)
    {
      if entry.uuid == "" {
        return false;
      }
      logs := logs[entry.uuid := LogsOf(logs, entry.uuid) + [entry]];
      ok := true;
    }

    /** The newest `limit` entries in append order; 0 or less means all. */
    method ListLogs(uuid: string, limit: int) returns (out: seq<ChangeLog>)
      ensures exists k :: 0 <= k <= |LogsOf(logs, uuid)| && out == LogsOf(logs, uuid)[k..]
      ensures limit <= 0 ==> out == LogsOf(logs, uuid)
      ensures limit > 0 ==> |out| == if |LogsOf(logs, uuid)| > limit then limit else |LogsOf(logs, uuid)|
    {
      var all := LogsOf(logs, uuid);
      out := all[0..];
      if limit > 0 && |all| > limit {
        out := all[|all| - limit..];
      }
    }

    method BatchGet(uuids: seq<string>) returns (out: map<string, Record>)
      requires Valid()
      ensures out.Keys == Hits(contents, uuids).Keys
      ensures forall u :: u in out ==> fresh(out[u]) && out[u].info == contents[u]
    {
      out := map[];
      for k := 0 to |uuids|
        invariant forall u :: u in out <==> u in uuids[..k] && u in contents
        invariant forall u :: u in out ==> fresh(out[u]) && out[u].info == contents[u]
      {
        if uuids[k] in agents {
          var cp := new Record(agents[uuids[k]].info);
          out := out[uuids[k] := cp];
        }
      }
    }

    method Count() returns (n: nat)
      requires Valid()
      ensures n == |contents|
    {
      n := |agents|;
      assert agents.Keys == contents.Keys;
    }
  }

  // ---------------------------------------------------------------------
  // Callers cannot reach the stored records
  // ---------------------------------------------------------------------

  /** Whatever a caller does afterwards to the record it put or to the records it got back, the store still
      reads the value that was put, and every other agent as before. */
  method CallerWritesAreInvisible(p: MemoryPersistence, rec: Record, junk: AgentInfo, uuid: string)
    returns (again: Record?)
    requires p.Valid() && rec.info.uuid != ""
    requires rec !in p.owned
    modifies p, rec
    ensures p.Valid()
    ensures p.contents == old(p.contents)[old(rec.info.uuid) := old(rec.info)]
    ensures again == null <==> uuid !in p.contents
    ensures again != null ==> again.info == p.contents[uuid]
  {
    var _ := p.PutAgent(rec);
    rec.info := junk;
    var got := p.GetAgent(uuid);
    if got != null {
      got.info := junk;
    }
    again := p.GetAgent(uuid);
  }

  // ---------------------------------------------------------------------
  // Sorting helpers
  // ---------------------------------------------------------------------

  lemma UuidOrder()
    ensures StrictWeakOrder((a: AgentInfo, b: AgentInfo) => LexLess(a.uuid, b.uuid))
  {
    forall a: AgentInfo ensures !LexLess(a.uuid, a.uuid) { LexIrreflexive(a.uuid); }
    forall a: AgentInfo, b: AgentInfo, c: AgentInfo | LexLess(a.uuid, b.uuid) && LexLess(b.uuid, c.uuid)
      ensures LexLess(a.uuid, c.uuid)
    {
      LexTransitive(a.uuid, b.uuid, c.uuid);
    }
    forall a: AgentInfo, b: AgentInfo, c: AgentInfo | LexLess(a.uuid, c.uuid)
      ensures LexLess(a.uuid, b.uuid) || LexLess(b.uuid, c.uuid)
    {
      LexTotal(a.uuid, b.uuid);
      if LexLess(b.uuid, a.uuid) { LexTransitive(b.uuid, a.uuid, c.uuid); }
    }
  }

  /** Sorting records with distinct UUIDs leaves them strictly ascending. */
  lemma SortedDistinct(s: seq<AgentInfo>, t: seq<AgentInfo>)
    requires multiset(s) == multiset(t)
    requires forall i, j :: 0 <= i < j < |s| ==> s[i].uuid != s[j].uuid
    requires SortedBy(t, (a: AgentInfo, b: AgentInfo) => LexLess(a.uuid, b.uuid))
    ensures forall x :: x in t <==> x in s
    ensures forall i, j :: 0 <= i < j < |t| ==> LexLess(t[i].uuid, t[j].uuid)
  {
    forall x ensures x in t <==> x in s { assert x in multiset(t) <==> x in multiset(s); }
    var less := (a: AgentInfo, b: AgentInfo) => LexLess(a.uuid, b.uuid);
    forall i, j | 0 <= i < j < |t| ensures LexLess(t[i].uuid, t[j].uuid) {
      assert !less(t[j], t[i]);
      LexTotal(t[i].uuid, t[j].uuid);
      if t[i].uuid == t[j].uuid {
        SameUuidSameRecord(s, t[i], t[j]);
        TwiceInMultiset(t, i, j);
        OnceInMultiset(s, t[i]);
        assert false;
      }
    }
  }

  lemma SameUuidSameRecord(s: seq<AgentInfo>, x: AgentInfo, y: AgentInfo)
    requires forall i, j :: 0 <= i < j < |s| ==> s[i].uuid != s[j].uuid
    requires x in s && y in s && x.uuid == y.uuid
    ensures x == y
  {
    var i :| 0 <= i < |s| && s[i] == x;
    var j :| 0 <= j < |s| && s[j] == y;
    assert i == j;
  }
}
