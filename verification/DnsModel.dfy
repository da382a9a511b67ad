/**
 The DNS planner as functions on values: records and their planning keys, the per-recordset diff,
 the batch request it is sent as, and what the provider does with that batch.
 */
module DnsModel {
  import opened Wrappers

  // ---------------------------------------------------------------- records

  datatype Kind = A | AAAA | CNAME | MX | TXT | NS | OtherKind(name: string) {
    predicate ProxyCapable() { A? || AAAA? || CNAME? }
    predicate Address() { A? || AAAA? }
  }

  datatype RecordSet = RecordSet(kind: Kind, name: string)

  /** The restorable metadata fields a record carries, each with its JSON text. */
  type Meta = map<string, string>

  datatype Record = Record(
    kind: Kind, name: string, content: string, ttl: int, proxied: bool, priority: Option<int>, meta: Meta)
  {
    function Set(): RecordSet { RecordSet(kind, name) }

    /** The record without its metadata: type, name, content, TTL, proxy flag and priority. */
    function Semantic(): Record { this.(meta := map[]) }

    predicate WellFormed() {
      (proxied ==> kind.ProxyCapable()) && (priority.Some? <==> kind.MX?)
    }
  }

  /** A record as the provider lists it. */
  datatype Listed = Listed(id: string, record: Record)

  datatype Manifest = Manifest(managed: seq<RecordSet>, records: seq<Record>, rollback: bool)

  datatype Change =
    | Create(after: Record)
    | Update(before: Listed, after: Record)
    | Delete(before: Listed)

  /** Planning compares metadata only when it rolls back. */
  function PlanningKey(r: Record, rollback: bool): Record {
    if rollback then r else r.Semantic()
  }

  function ListedKey(rollback: bool): Listed -> Record {
    (x: Listed) => PlanningKey(x.record, rollback)
  }

  function RecordKey(rollback: bool): Record -> Record {
    (r: Record) => PlanningKey(r, rollback)
  }

  /** Any total order on planning keys, such as the lexicographic one on the tuples they stand for. */
  ghost predicate TotalOrder(le: (Record, Record) -> bool) {
    && (forall a, b :: le(a, b) || le(b, a))
    && (forall a, b :: le(a, b) && le(b, a) ==> a == b)
    && (forall a, b, c :: le(a, b) && le(b, c) ==> le(a, c))
  }

  // ---------------------------------------------------------------- sorting

  /** Put x behind everything not above it: equal keys keep their order. */
  function Insert<T>(x: T, sorted: seq<T>, key: T -> Record, le: (Record, Record) -> bool): seq<T> {
    if sorted == [] then [x]
    else
      var last := sorted[|sorted| - 1];
      if le(key(last), key(x)) then sorted + [x]
      else Insert(x, sorted[..|sorted| - 1], key, le) + [last]
  }

  function SortBy<T>(xs: seq<T>, key: T -> Record, le: (Record, Record) -> bool): seq<T> {
    if xs == [] then [] else Insert(xs[|xs| - 1], SortBy(xs[..|xs| - 1], key, le), key, le)
  }

  function InSet(xs: seq<Listed>, rs: RecordSet): seq<Listed> {
    if xs == [] then []
    else InSet(xs[..|xs| - 1], rs) + (if xs[|xs| - 1].record.Set() == rs then [xs[|xs| - 1]] else [])
  }

  function RecordsInSet(xs: seq<Record>, rs: RecordSet): seq<Record> {
    if xs == [] then []
    else RecordsInSet(xs[..|xs| - 1], rs) + (if xs[|xs| - 1].Set() == rs then [xs[|xs| - 1]] else [])
  }

  // ---------------------------------------------------------------- the diff

  function CurrentSet(m: Manifest, rs: RecordSet, current: seq<Listed>, le: (Record, Record) -> bool): seq<Listed> {
    SortBy(InSet(current, rs), ListedKey(m.rollback), le)
  }

  function DesiredSet(m: Manifest, rs: RecordSet, le: (Record, Record) -> bool): seq<Record> {
    SortBy(RecordsInSet(m.records, rs), RecordKey(m.rollback), le)
  }

  /** Which keys are still unclaimed after each current record has claimed its own, if it was there. */
  function Unclaimed(current: seq<Listed>, keys: set<Record>, rollback: bool): set<Record> {
    if current == [] then keys
    else Unclaimed(current[..|current| - 1], keys, rollback) -
         {PlanningKey(current[|current| - 1].record, rollback)}
  }

  /** The current records that found their key already claimed, or never wanted. */
  function Unmatched(current: seq<Listed>, keys: set<Record>, rollback: bool): seq<Listed> {
    if current == [] then []
    else
      var init := current[..|current| - 1];
      var last := current[|current| - 1];
      Unmatched(init, keys, rollback) +
      (if PlanningKey(last.record, rollback) in Unclaimed(init, keys, rollback) then [] else [last])
  }

  function KeySet(records: seq<Record>, rollback: bool): set<Record> {
    set r <- records :: PlanningKey(r, rollback)
  }

  function StillWanted(desired: seq<Record>, unclaimed: set<Record>, rollback: bool): seq<Record> {
    if desired == [] then []
    else StillWanted(desired[..|desired| - 1], unclaimed, rollback) +
         (if PlanningKey(desired[|desired| - 1], rollback) in unclaimed then [desired[|desired| - 1]] else [])
  }

  function Min(a: nat, b: nat): nat { if a <= b then a else b }

  /** Overwrite pairwise, then create or delete what is left over. */
  function Pair(current: seq<Listed>, desired: seq<Record>): seq<Change> {
    var n := Min(|current|, |desired|);
    seq(n, i requires 0 <= i < n => Update(current[i], desired[i]))
    + seq(|desired| - n, i requires 0 <= i < |desired| - n => Create(desired[n + i]))
    + seq(|current| - n, i requires 0 <= i < |current| - n => Delete(current[n + i]))
  }

  function LeftOver(m: Manifest, rs: RecordSet, current: seq<Listed>, le: (Record, Record) -> bool): seq<Listed> {
    Unmatched(CurrentSet(m, rs, current, le), KeySet(DesiredSet(m, rs, le), m.rollback), m.rollback)
  }

  function Missing(m: Manifest, rs: RecordSet, current: seq<Listed>, le: (Record, Record) -> bool): seq<Record> {
    var desired := DesiredSet(m, rs, le);
    StillWanted(desired, Unclaimed(CurrentSet(m, rs, current, le), KeySet(desired, m.rollback), m.rollback), m.rollback)
  }

  function SetPlan(m: Manifest, rs: RecordSet, current: seq<Listed>, le: (Record, Record) -> bool): seq<Change> {
    Pair(LeftOver(m, rs, current, le), Missing(m, rs, current, le))
  }

  function SetPlans(m: Manifest, sets: seq<RecordSet>, current: seq<Listed>, le: (Record, Record) -> bool): seq<Change> {
    if sets == [] then []
    else SetPlans(m, sets[..|sets| - 1], current, le) + SetPlan(m, sets[|sets| - 1], current, le)
  }

  function Changes(m: Manifest, current: seq<Listed>, le: (Record, Record) -> bool): seq<Change> {
    SetPlans(m, m.managed, current, le)
  }

  // ---------------------------------------------------------------- conflicts

  predicate Managed(m: Manifest, r: Record) { r.Set() in m.managed }

  /** Something at this desired record's name that the plan may not touch and cannot live with. */
  predicate ConflictsAt(m: Manifest, d: Record, r: Record) {
    && r.name == d.name && !Managed(m, r)
    && (r.kind.NS? ||
        if HasKind(m, d.name, CNAME) then r.kind.ProxyCapable()
        else HasAddress(m, d.name) &&
             (r.kind.CNAME? || (r.kind.Address() && r.proxied != FirstAddress(m.records, d.name).proxied)))
  }

  predicate HasKind(m: Manifest, name: string, kind: Kind) {
    exists d <- m.records :: d.name == name && d.kind == kind
  }

  predicate HasAddress(m: Manifest, name: string) {
    AddressAmong(m.records, name)
  }

  predicate AddressAmong(records: seq<Record>, name: string) {
    exists d <- records :: d.name == name && d.kind.Address()
  }

  function FirstAddress(records: seq<Record>, name: string): Record
    requires AddressAmong(records, name)
  {
    if records[0].name == name && records[0].kind.Address() then records[0]
    else FirstAddress(records[1..], name)
  }

  predicate Conflicting(m: Manifest, current: seq<Listed>) {
    exists d <- m.records, x <- current :: ConflictsAt(m, d, x.record)
  }

  // ---------------------------------------------------------------- manifest rules

  predicate DistinctSemantics(records: seq<Record>) {
    forall i, j | 0 <= i < j < |records| :: records[i].Semantic() != records[j].Semantic()
  }

  /** What both loaders check of the records that share a name. */
  predicate NameRules(records: seq<Record>) {
    && (forall i, j | 0 <= i < j < |records| && records[i].name == records[j].name ::
          !records[i].kind.CNAME? && !records[j].kind.CNAME?)
    && (forall i, j | 0 <= i < |records| && 0 <= j < |records| && records[i].name == records[j].name &&
                      records[i].kind.MX? && records[j].kind.MX? && records[i].content == "." ::
          i == j && records[i].priority == Some(0))
    && (forall i, j | 0 <= i < |records| && 0 <= j < |records| && records[i].name == records[j].name &&
                      records[i].kind.Address() && records[j].kind.Address() ::
          records[i].proxied == records[j].proxied)
  }

  predicate TtlOk(r: Record) {
    (r.ttl == 1 || 60 <= r.ttl <= 86400) && (r.proxied ==> r.ttl == 1)
  }

  predicate PriorityOk(r: Record) {
    r.priority.Some? ==> 0 <= r.priority.value <= 65535
  }

  predicate SupportedKind(k: Kind) { k.A? || k.AAAA? || k.CNAME? || k.MX? || k.TXT? }

  /** A manifest that its loader lets through. A forward manifest carries no metadata. */
  predicate Loadable(m: Manifest) {
    && m.managed != []
    && (forall i, j | 0 <= i < j < |m.managed| :: m.managed[i] != m.managed[j])
    && (forall rs <- m.managed :: SupportedKind(rs.kind))
    && (forall r <- m.records ::
          Managed(m, r) && r.WellFormed() && TtlOk(r) && PriorityOk(r) && r.content != [] &&
          (!m.rollback ==> r.meta == map[]))
    && DistinctSemantics(m.records)
    && NameRules(m.records)
  }

  // ---------------------------------------------------------------- the remote zone

  type Zone = map<string, Record>

  /** `current` names every record of the zone once, in whatever order. */
  ghost predicate Lists(z: Zone, current: seq<Listed>) {
    && (forall x <- current :: x.id in z && z[x.id] == x.record)
    && (forall id <- z :: Listed(id, z[id]) in current)
    && (forall i, j | 0 <= i < j < |current| :: current[i].id != current[j].id)
  }

  /** The JSON of a write: absent fields are absent. */
  datatype Payload = Payload(
    kind: Kind, name: string, content: string, ttl: int, proxied: Option<bool>, priority: Option<int>, meta: Meta)

  function PayloadOf(r: Record): Payload {
    Payload(r.kind, r.name, r.content, r.ttl, if r.kind.ProxyCapable() then Some(r.proxied) else None,
            r.priority, r.meta)
  }

  /** A patch overwrites the fields it carries and leaves the others alone. */
  function Patched(was: Record, p: Payload): Record {
    Record(p.kind, p.name, p.content, p.ttl,
           if p.proxied.Some? then p.proxied.value else was.proxied,
           if p.priority.Some? then p.priority else was.priority,
           was.meta + p.meta)
  }

  function Posted(p: Payload): Record {
    Record(p.kind, p.name, p.content, p.ttl, p.proxied.Some? && p.proxied.value, p.priority, p.meta)
  }

  datatype Batch = Batch(deletes: seq<string>, patches: seq<(string, Payload)>, posts: seq<Payload>)

  function DeletesOf(changes: seq<Change>): seq<string> {
    if changes == [] then []
    else
      var c := changes[|changes| - 1];
      DeletesOf(changes[..|changes| - 1]) + (if c.Delete? then [c.before.id] else [])
  }

  function PatchesOf(changes: seq<Change>): seq<(string, Payload)> {
    if changes == [] then []
    else
      var c := changes[|changes| - 1];
      PatchesOf(changes[..|changes| - 1]) + (if c.Update? then [(c.before.id, PayloadOf(c.after))] else [])
  }

  function PostsOf(changes: seq<Change>): seq<Payload> {
    if changes == [] then []
    else
      var c := changes[|changes| - 1];
      PostsOf(changes[..|changes| - 1]) + (if c.Create? then [PayloadOf(c.after)] else [])
  }

  function BatchOf(changes: seq<Change>): Batch {
    Batch(DeletesOf(changes), PatchesOf(changes), PostsOf(changes))
  }

  function PatchAll(z: Zone, patches: seq<(string, Payload)>): Zone {
    if patches == [] then z
    else
      var z := PatchAll(z, patches[..|patches| - 1]);
      var (id, p) := patches[|patches| - 1];
      if id in z then z[id := Patched(z[id], p)] else z
  }

  function PostAll(z: Zone, posts: seq<Payload>, newIds: seq<string>): Zone
    requires |newIds| == |posts|
  {
    if posts == [] then z
    else PostAll(z, posts[..|posts| - 1], newIds[..|posts| - 1])[newIds[|posts| - 1] := Posted(posts[|posts| - 1])]
  }

  /** The provider deletes, then patches, then creates under ids of its own choosing. */
  function ApplyBatch(z: Zone, b: Batch, newIds: seq<string>): Zone
    requires |newIds| == |b.posts|
  {
    PostAll(PatchAll(z - (set id <- b.deletes), b.patches), b.posts, newIds)
  }

  ghost predicate FreshFor(z: Zone, b: Batch, newIds: seq<string>) {
    && |newIds| == |b.posts|
    && (forall id <- newIds :: id !in z)
    && (forall i, j | 0 <= i < j < |newIds| :: newIds[i] != newIds[j])
  }

  // ---------------------------------------------------------------- what the plan is for

  /** The managed part of the zone is exactly the desired records, each once, as planning compares them. */
  ghost predicate Exact(z: Zone, m: Manifest) {
    && (forall id <- z | Managed(m, z[id]) :: PlanningKey(z[id], m.rollback) in KeySet(m.records, m.rollback))
    && (forall d <- m.records :: exists id <- z :: PlanningKey(z[id], m.rollback) == PlanningKey(d, m.rollback))
    && (forall a, b | a in z && b in z && a != b && Managed(m, z[a]) ::
          PlanningKey(z[a], m.rollback) != PlanningKey(z[b], m.rollback))
  }

  /** Records outside the managed recordsets are the same, under the same ids. */
  ghost predicate SameUnmanaged(z: Zone, z': Zone, m: Manifest) {
    && (forall id <- z | !Managed(m, z[id]) :: id in z' && z'[id] == z[id])
    && (forall id <- z' | !Managed(m, z'[id]) :: id in z && z[id] == z'[id])
  }

  ghost predicate ZoneWellFormed(z: Zone, m: Manifest) {
    forall id <- z | Managed(m, z[id]) :: z[id].WellFormed()
  }
}
