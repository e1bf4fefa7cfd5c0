/** Tables that only grow: what a front-to-back scan finds, and what appending can change. */
module KeyedTables {
  import opened Options

  /** The scan both tables use: the first entry under the key. */
  function Find<K(==), V>(t: seq<(K, V)>, k: K): Option<V> {
    if t == [] then None
    else if t[0].0 == k then Some(t[0].1)
    else Find(t[1..], k)
  }

  ghost predicate Unique<K, V>(t: seq<(K, V)>) {
    forall i, j :: 0 <= i < j < |t| ==> t[i].0 != t[j].0
  }

  /** The table as a finite map. */
  ghost function AsMap<K, V>(t: seq<(K, V)>): map<K, V> {
    if t == [] then map[] else AsMap(t[1..])[t[0].0 := t[0].1]
  }

  lemma {:induction false} FindIsLookup<K, V>(t: seq<(K, V)>, k: K)
    ensures Find(t, k) == if k in AsMap(t) then Some(AsMap(t)[k]) else None
  {
    if t != [] {
      FindIsLookup(t[1..], k);
    }
  }

  lemma {:induction false} FindSplits<K, V>(a: seq<(K, V)>, b: seq<(K, V)>, k: K)
    ensures Find(a + b, k) == if Find(a, k).Some? then Find(a, k) else Find(b, k)
  {
    if a == [] {
      assert a + b == b;
    } else {
      assert (a + b)[1..] == a[1..] + b;
      FindSplits(a[1..], b, k);
    }
  }

  /** A key that is found stays found, with the same value, however the table grows. */
  lemma FoundStaysFound<K, V>(t: seq<(K, V)>, later: seq<(K, V)>, k: K)
    requires t <= later && Find(t, k).Some?
    ensures Find(later, k) == Find(t, k)
  {
    assert later == t + later[|t|..];
    FindSplits(t, later[|t|..], k);
  }

  lemma {:induction false} FoundAt<K, V>(t: seq<(K, V)>, i: nat)
    requires i < |t| && forall j :: 0 <= j < i ==> t[j].0 != t[i].0
    ensures Find(t, t[i].0) == Some(t[i].1)
  {
    if i > 0 {
      assert forall j :: 0 <= j < i - 1 ==> t[1..][j] == t[j + 1];
      FoundAt(t[1..], i - 1);
    }
  }

  lemma {:induction false} AbsentMeansNoEntry<K, V>(t: seq<(K, V)>, k: K)
    ensures Find(t, k).None? <==> forall i :: 0 <= i < |t| ==> t[i].0 != k
  {
    if t != [] {
      AbsentMeansNoEntry(t[1..], k);
      assert forall i :: 0 < i < |t| ==> t[i] == t[1..][i - 1];
    }
  }

  lemma AppendKeepsUnique<K, V>(t: seq<(K, V)>, e: (K, V))
    requires Unique(t) && Find(t, e.0).None?
    ensures Unique(t + [e])
  {
    AbsentMeansNoEntry(t, e.0);
    hide Find;
  }
}

/** One writer that fills a slot and then publishes the length; many readers that load the length
    once and look at one slot per step. Every access is a step of its own. */
module Publication {
  import opened Options
  import opened KeyedTables

  datatype Writer<K, V> = Idle | Filled(entry: (K, V))

  /** `seen` is the table at the moment the reader loaded the length; the code does not store it. */
  datatype Reader<K, V> =
    | Scanning(key: K, bound: nat, pos: nat, seen: seq<(K, V)>)
    | Done(key: K, result: Option<V>, seen: seq<(K, V)>)

  datatype State<K, V> = State(slots: seq<(K, V)>, length: nat, writer: Writer<K, V>, readers: map<nat, Reader<K, V>>)

  /** Scribble is any intermediate content of the slot being filled: a write need not be atomic. */
  datatype Step<K, V> =
    | Scribble(entry: (K, V))
    | Fill(entry: (K, V))
    | Publish
    | Load(id: nat, key: K)
    | Look(id: nat)

  ghost predicate Fits<K, V>(s: State<K, V>) {
    s.length <= |s.slots|
  }

  ghost function Published<K, V>(s: State<K, V>): seq<(K, V)>
    requires Fits(s)
  {
    s.slots[..s.length]
  }

  ghost predicate Enabled<K, V>(s: State<K, V>, step: Step<K, V>)
    requires Fits(s)
  {
    match step
    case Scribble(e) => s.writer.Idle? && s.length < |s.slots|
    case Fill(e) => s.writer.Idle? && s.length < |s.slots| && Find(Published(s), e.0).None?
    case Publish => s.writer.Filled? && s.length < |s.slots|
    case Load(id, k) => id !in s.readers
    case Look(id) => id in s.readers && s.readers[id].Scanning? && s.readers[id].bound <= |s.slots|
  }

  ghost function Apply<K, V>(s: State<K, V>, step: Step<K, V>): State<K, V>
    requires Fits(s) && Enabled(s, step)
  {
    match step
    case Scribble(e) => s.(slots := s.slots[s.length := e])
    case Fill(e) => s.(slots := s.slots[s.length := e], writer := Filled(e))
    case Publish => s.(length := s.length + 1, writer := Idle)
    case Load(id, k) => s.(readers := s.readers[id := Scanning(k, s.length, 0, Published(s))])
    case Look(id) => s.(readers := s.readers[id := Looked(s.readers[id], s.slots)])
  }

  /** One slot compared, or the scan given up at the bound loaded at its start. */
  ghost function Looked<K, V>(r: Reader<K, V>, slots: seq<(K, V)>): Reader<K, V>
    requires r.Scanning? && r.bound <= |slots|
  {
    if r.pos >= r.bound then Done(r.key, None, r.seen)
    else if slots[r.pos].0 == r.key then Done(r.key, Some(slots[r.pos].1), r.seen)
    else r.(pos := r.pos + 1)
  }

  ghost predicate ReaderInv<K, V>(r: Reader<K, V>, table: seq<(K, V)>) {
    && r.seen <= table
    && match r
       case Scanning(k, bound, pos, seen) => bound == |seen| && pos <= bound && Find(seen[..pos], k).None?
       case Done(k, result, seen) => result == Find(seen, k)
  }

  ghost predicate Inv<K, V>(s: State<K, V>) {
    && Fits(s)
    && Unique(Published(s))
    && (s.writer.Filled? ==>
          s.length < |s.slots| && s.slots[s.length] == s.writer.entry && Find(Published(s), s.writer.entry.0).None?)
    && forall id :: id in s.readers ==> ReaderInv(s.readers[id], Published(s))
  }

  ghost predicate Initial<K, V>(s: State<K, V>) {
    s.length == 0 && s.writer.Idle? && s.readers == map[]
  }

  lemma LookKeepsReader<K, V>(r: Reader<K, V>, slots: seq<(K, V)>, length: nat)
    requires length <= |slots| && r.Scanning? && ReaderInv(r, slots[..length])
    ensures ReaderInv(Looked(r, slots), slots[..length])
  {
    if r.pos >= r.bound {
      assert r.seen[..r.pos] == r.seen;
    } else {
      assert slots[r.pos] == r.seen[r.pos];
      assert r.seen[..r.pos + 1] == r.seen[..r.pos] + [r.seen[r.pos]];
      FindSplits(r.seen[..r.pos], [r.seen[r.pos]], r.key);
      assert r.seen == r.seen[..r.pos + 1] + r.seen[r.pos + 1..];
      FindSplits(r.seen[..r.pos + 1], r.seen[r.pos + 1..], r.key);
    }
  }

  /** Every step keeps the invariant, and published slots never change: the table only grows. */
  lemma StepKeepsInv<K, V>(s: State<K, V>, step: Step<K, V>)
    requires Inv(s) && Enabled(s, step)
    ensures Inv(Apply(s, step)) && Published(s) <= Published(Apply(s, step))
  {
    var t := Apply(s, step);
    match step
    case Scribble(e) => assert Published(t) == Published(s);
    case Fill(e) => assert Published(t) == Published(s);
    case Publish =>
      assert Published(t) == Published(s) + [s.writer.entry];
      AppendKeepsUnique(Published(s), s.writer.entry);
    case Load(id, k) => assert Published(s)[..0] == [];
    case Look(id) => LookKeepsReader(s.readers[id], s.slots, s.length);
  }

  ghost predicate CanRun<K, V>(s: State<K, V>, steps: seq<Step<K, V>>)
    decreases |steps|
  {
    Fits(s) && (steps == [] || (Enabled(s, steps[0]) && CanRun(Apply(s, steps[0]), steps[1..])))
  }

  ghost function After<K, V>(s: State<K, V>, steps: seq<Step<K, V>>): State<K, V>
    requires CanRun(s, steps)
    decreases |steps|
  {
    if steps == [] then s else After(Apply(s, steps[0]), steps[1..])
  }

  /** Over any run the table only grows, its keys stay unique, and a reader keeps the key and the
      table it started from. */
  lemma {:induction false} RunKeepsInv<K, V>(s: State<K, V>, steps: seq<Step<K, V>>)
    requires Inv(s) && CanRun(s, steps)
    ensures var t := After(s, steps);
            && Inv(t) && Published(s) <= Published(t) && Unique(Published(t))
            && forall id :: id in s.readers ==>
                 id in t.readers && t.readers[id].key == s.readers[id].key && t.readers[id].seen == s.readers[id].seen
    decreases |steps|
  {
    if steps != [] {
      StepKeepsInv(s, steps[0]);
      hide Inv;
      RunKeepsInv(Apply(s, steps[0]), steps[1..]);
    }
  }

  lemma {:induction false} RunsJoin<K, V>(s: State<K, V>, a: seq<Step<K, V>>, b: seq<Step<K, V>>)
    requires CanRun(s, a + b)
    ensures CanRun(s, a) && CanRun(After(s, a), b) && After(s, a + b) == After(After(s, a), b)
    decreases |a|
  {
    if a == [] {
      assert a + b == b;
    } else {
      assert (a + b)[0] == a[0] && (a + b)[1..] == a[1..] + b;
      RunsJoin(Apply(s, a[0]), a[1..], b);
    }
  }

  /** In every interleaving, a scan that started after `before` and has finished by the end of `after`
      gave the lookup in the table exactly as it stood at its length load; and what it found is what
      the table says from then on. */
  lemma EveryScanIsALookup<K, V>(s: State<K, V>, before: seq<Step<K, V>>, id: nat, k: K, after: seq<Step<K, V>>)
    requires Initial(s) && CanRun(s, before + [Load(id, k)] + after)
    ensures CanRun(s, before) && Fits(After(s, before))
    ensures var loaded, end := After(s, before), After(s, before + [Load(id, k)] + after);
            && Fits(end) && id in end.readers
            && (end.readers[id].Done? ==>
                  && end.readers[id].key == k
                  && end.readers[id].result == Find(Published(loaded), k)
                  && (end.readers[id].result.Some? ==> Find(Published(end), k) == end.readers[id].result))
  {
    RunsJoin(s, before + [Load(id, k)], after);
    RunsJoin(s, before, [Load(id, k)]);
    var loaded := After(s, before);
    RunKeepsInv(s, before);
    var started := After(loaded, [Load(id, k)]);
    assert started == Apply(loaded, Load(id, k));
    StepKeepsInv(loaded, Load(id, k));
    RunKeepsInv(started, after);
    var end := After(started, after);
    if Find(Published(loaded), k).Some? {
      FoundStaysFound(Published(loaded), Published(end), k);
    }
  }

  /** The order inside `register`: filling then publishing appends one entry; a slot that is filled but
      not published changes nothing a reader can load. */
  lemma RegisterAppends<K, V>(s: State<K, V>, e: (K, V))
    requires Inv(s) && s.writer.Idle? && s.length < |s.slots| && Find(Published(s), e.0).None?
    ensures var filled := Apply(s, Fill(e));
            && Enabled(s, Fill(e)) && Published(filled) == Published(s)
            && Enabled(filled, Publish) && Published(Apply(filled, Publish)) == Published(s) + [e]
  {
    StepKeepsInv(s, Fill(e));
  }
}

/** Server names to isolation domains. */
module RealmTable {
  import opened Options
  import opened BigEndian
  import opened KeyedTables

  type Name = seq<Byte>
  type RealmId = U16

  datatype RealmEntry = RealmEntry(sni: Name, realm: RealmId)
  datatype RealmError = SingleRealmDeployment | DuplicateName | TableFull

  function ToLower(b: Byte): Byte {
    if 65 <= b <= 90 then b + 32 else b
  }

  function Lower(name: Name): (r: Name)
    ensures |r| == |name|
    ensures forall i :: 0 <= i < |name| ==> r[i] == ToLower(name[i])
  {
    if name == [] then [] else [ToLower(name[0])] + Lower(name[1..])
  }

  /** The names agree up to the case of ASCII letters: an upper-case letter is 32 below its lower-case one. */
  predicate SameName(a: Name, b: Name) {
    && |a| == |b|
    && forall i :: 0 <= i < |a| ==> SameLetter(a[i], b[i])
  }

  predicate SameLetter(x: Byte, y: Byte) {
    x == y || (65 <= x <= 90 && y == x + 32) || (65 <= y <= 90 && x == y + 32)
  }

  lemma ToLowerIgnoresCase(x: Byte, y: Byte)
    ensures ToLower(x) == ToLower(y) <==> SameLetter(x, y)
  {
  }

  /** Lower-casing is what makes such names equal, and no others. */
  lemma LowerIgnoresCase(a: Name, b: Name)
    ensures Lower(a) == Lower(b) <==> SameName(a, b)
  {
    hide ToLower, SameLetter;
    if |a| == |b| {
      forall i | 0 <= i < |a| ensures Lower(a)[i] == Lower(b)[i] <==> SameLetter(a[i], b[i]) {
        ToLowerIgnoresCase(a[i], b[i]);
      }
    }
    hide Lower;
  }

  /** Comparison byte by byte without case. */
  method EqlIgnoreCase(a: Name, b: Name) returns (same: bool)
    ensures same <==>
              && |a| == |b|
              && forall i :: 0 <= i < |a| ==>
                   a[i] == b[i] || (65 <= a[i] <= 90 && b[i] == a[i] + 32) || (65 <= b[i] <= 90 && a[i] == b[i] + 32)
    ensures same <==> Lower(a) == Lower(b)
  {
    LowerIgnoresCase(a, b);
    hide ToLower, Lower;
    if |a| != |b| {
      return false;
    }
    for i := 0 to |a|
      invariant forall j :: 0 <= j < i ==> SameLetter(a[j], b[j])
    {
      ToLowerIgnoresCase(a[i], b[i]);
      if ToLower(a[i]) != ToLower(b[i]) {
        return false;
      }
    }
    return true;
  }

  /** Entries under the key the table compares by. */
  function ByName(entries: seq<RealmEntry>): (t: seq<(Name, RealmId)>)
    ensures |t| == |entries|
    ensures forall i :: 0 <= i < |t| ==> t[i] == (Lower(entries[i].sni), entries[i].realm)
  {
    seq(|entries|, i requires 0 <= i < |entries| => (Lower(entries[i].sni), entries[i].realm))
  }

  /** The domain of a connection: that of its name, else the deployment's fallback, if it has one. */
  function Resolution(table: seq<(Name, RealmId)>, fallback: Option<RealmId>, sni: Option<Name>): Option<RealmId> {
    match sni
    case None => fallback
    case Some(name) =>
      match Find(table, Lower(name))
      case Some(realm) => Some(realm)
      case None => fallback
  }

  /** Who gets what: no name, the fallback; a name some entry has up to case, that entry's domain; any
      other name, the fallback. */
  lemma {:induction false} ResolutionIs(entries: seq<RealmEntry>, fallback: Option<RealmId>, sni: Option<Name>)
    requires Unique(ByName(entries))
    ensures var r := Resolution(ByName(entries), fallback, sni);
            && (sni.None? ==> r == fallback)
            && (sni.Some? ==>
                  && (forall i :: 0 <= i < |entries| && SameName(entries[i].sni, sni.value) ==> r == Some(entries[i].realm))
                  && ((forall i :: 0 <= i < |entries| ==> !SameName(entries[i].sni, sni.value)) ==> r == fallback))
  {
    if sni.Some? {
      FindByName(entries, sni.value);
    }
  }

  /** Some entry has the name up to case. */
  predicate HasName(entries: seq<RealmEntry>, name: Name) {
    exists i :: 0 <= i < |entries| && SameName(entries[i].sni, name)
  }

  /** Finding the lower-cased name is finding the one entry that has it up to case. */
  lemma {:induction false} FindByName(entries: seq<RealmEntry>, name: Name)
    requires Unique(ByName(entries))
    ensures Find(ByName(entries), Lower(name)).Some? <==> HasName(entries, name)
    ensures forall i :: 0 <= i < |entries| && SameName(entries[i].sni, name) ==>
              Find(ByName(entries), Lower(name)) == Some(entries[i].realm)
  {
    var t := ByName(entries);
    forall i | 0 <= i < |entries| ensures t[i].0 == Lower(name) <==> SameName(entries[i].sni, name) {
      LowerIgnoresCase(entries[i].sni, name);
    }
    hide SameName, Lower;
    AbsentMeansNoEntry(t, Lower(name));
    forall i | 0 <= i < |entries| && SameName(entries[i].sni, name) ensures Find(t, Lower(name)) == Some(entries[i].realm) {
      FoundAt(t, i);
    }
  }

  /** Once a name has resolved through an entry, every later table resolves it the same way. */
  lemma ResolvedStaysResolved(t: seq<(Name, RealmId)>, later: seq<(Name, RealmId)>, fallback: Option<RealmId>, a: Name, b: Name)
    requires t <= later && Find(t, Lower(a)).Some? && Lower(a) == Lower(b)
    ensures Resolution(later, fallback, Some(b)) == Resolution(t, fallback, Some(a)) == Find(t, Lower(a))
  {
    FoundStaysFound(t, later, Lower(a));
  }

  class Table {
    const slots: array<RealmEntry>
    const fallback: Option<RealmId>
    var len: nat

    ghost predicate Valid()
      reads this, slots
    {
      len <= slots.Length && Unique(Map())
    }

    function Entries(): seq<RealmEntry>
      requires len <= slots.Length
      reads this, slots
    {
      slots[..len]
    }

    ghost function Map(): seq<(Name, RealmId)>
      requires len <= slots.Length
      reads this, slots
    {
      ByName(Entries())
    }

    constructor (capacity: nat, fallback: Option<RealmId>)
      ensures Valid() && Entries() == [] && slots.Length == capacity && this.fallback == fallback && fresh(slots)
    {
      slots := new RealmEntry[capacity](_ => RealmEntry([], 0));
      this.fallback := fallback;
      len := 0;
    }

    /** The scan behind both resolve and the reload's lookup. */
    method Lookup(name: Name) returns (r: Option<RealmId>)
      requires Valid()
      ensures r == Find(Map(), Lower(name))
    {
      ghost var t, k := Map(), Lower(name);
      assert t[0..] == t;
      for i := 0 to len
        invariant Find(t, k) == Find(t[i..], k)
      {
        var same := EqlIgnoreCase(slots[i].sni, name);
        assert t[i..][1..] == t[i + 1..];
        if same {
          return Some(slots[i].realm);
        }
      }
      return None;
    }

    method Resolve(sni: Option<Name>) returns (r: Option<RealmId>)
      requires Valid()
      ensures r == Resolution(Map(), fallback, sni)
      ensures sni.None? ==> r == fallback
      ensures sni.Some? ==> forall i :: 0 <= i < len && SameName(slots[i].sni, sni.value) ==> r == Some(slots[i].realm)
      ensures sni.Some? && (forall i :: 0 <= i < len ==> !SameName(slots[i].sni, sni.value)) ==> r == fallback
    {
      ResolutionIs(Entries(), fallback, sni);
      if sni.None? {
        return fallback;
      }
      var found := Lookup(sni.value);
      return if found.Some? then found else fallback;
    }

    /** Appends one entry or changes nothing; earlier slots keep their place and content. */
    method Register(sni: Name, realm: RealmId) returns (r: Result<(), RealmError>)
      requires Valid()
      modifies this, slots
      ensures Valid()
      ensures r == if fallback.Some? then Err(SingleRealmDeployment)
                   else if Find(old(Map()), Lower(sni)).Some? then Err(DuplicateName)
                   else if old(len) == slots.Length then Err(TableFull)
                   else Ok(())
      ensures fallback.None? ==> (r == Err(DuplicateName) <==> HasName(old(Entries()), sni))
      ensures Entries() == if r.Ok? then old(Entries()) + [RealmEntry(sni, realm)] else old(Entries())
      ensures Map() == if r.Ok? then old(Map()) + [(Lower(sni), realm)] else old(Map())
    {
      FindByName(Entries(), sni);
      if fallback.Some? {
        return Err(SingleRealmDeployment);
      }
      var existing := Lookup(sni);
      if existing.Some? {
        return Err(DuplicateName);
      }
      var at := len;
      if at == slots.Length {
        return Err(TableFull);
      }
      AppendKeepsUnique(Map(), (Lower(sni), realm));
      ghost var was, before := Map(), slots[..];
      slots[at] := RealmEntry(sni, realm);
      len := at + 1;
      assert Entries() == before[..at] + [RealmEntry(sni, realm)];
      assert Map() == was + [(Lower(sni), realm)];
      return Ok(());
    }
  }
}

/** Scoped routes to backend endpoints. */
module RouteCatalogs {
  import opened Options
  import opened BigEndian
  import opened KeyedTables

  datatype ScopedRoute = ScopedRoute(routeKey: Byte, group: Byte, realm: U16) {
    /** The packed 32-bit key the catalog compares. */
    function Bits(): nat {
      (routeKey as int) + (group as int) * 0x100 + (realm as int) * 0x1_0000
    }
  }

  datatype Endpoint = Endpoint(host: seq<Byte>, port: U16)
  datatype RouteEntry = RouteEntry(route: ScopedRoute, endpoints: seq<Endpoint>)
  datatype CatalogError = CatalogFull | DuplicateRoute

  /** Comparing packed keys compares realm, group and route key. */
  lemma BitsTellRoutesApart(a: ScopedRoute, b: ScopedRoute)
    ensures a.Bits() == b.Bits() <==> a == b
  {
    DigitsTellApart(a.routeKey as nat, a.group as nat, a.realm as nat, b.routeKey as nat, b.group as nat, b.realm as nat);
  }

  lemma DigitsTellApart(x: nat, y: nat, z: nat, x': nat, y': nat, z': nat)
    requires x < 0x100 && y < 0x100 && x' < 0x100 && y' < 0x100
    ensures x + y * 0x100 + z * 0x1_0000 == x' + y' * 0x100 + z' * 0x1_0000 <==> x == x' && y == y' && z == z'
  {
    if x + y * 0x100 + z * 0x1_0000 == x' + y' * 0x100 + z' * 0x1_0000 {
      assert x - x' == 0x100 * (y' - y + 0x100 * (z' - z));
      assert y - y' == 0x100 * (z' - z);
    }
  }

  function ByRoute(entries: seq<RouteEntry>): (t: seq<(ScopedRoute, seq<Endpoint>)>)
    ensures |t| == |entries|
    ensures forall i :: 0 <= i < |t| ==> t[i] == (entries[i].route, entries[i].endpoints)
  {
    seq(|entries|, i requires 0 <= i < |entries| => (entries[i].route, entries[i].endpoints))
  }

  class RouteCatalog {
    const slots: array<RouteEntry>
    var len: nat

    ghost predicate Valid()
      reads this, slots
    {
      len <= slots.Length && Unique(Map())
    }

    function Entries(): seq<RouteEntry>
      requires len <= slots.Length
      reads this, slots
    {
      slots[..len]
    }

    ghost function Map(): seq<(ScopedRoute, seq<Endpoint>)>
      requires len <= slots.Length
      reads this, slots
    {
      ByRoute(Entries())
    }

    constructor (capacity: nat)
      ensures Valid() && Entries() == [] && slots.Length == capacity && fresh(slots)
    {
      slots := new RouteEntry[capacity](_ => RouteEntry(ScopedRoute(0, 0, 0), []));
      len := 0;
    }

    /** The entry registered for the route, in its own realm, or nothing. */
    method Lookup(route: ScopedRoute) returns (r: Option<RouteEntry>)
      requires Valid()
      ensures r.None? <==> Find(Map(), route).None?
      ensures r.Some? ==> r.value.route == route && Find(Map(), route) == Some(r.value.endpoints)
    {
      ghost var t := Map();
      assert t[0..] == t;
      for i := 0 to len
        invariant Find(t, route) == Find(t[i..], route)
      {
        BitsTellRoutesApart(slots[i].route, route);
        assert t[i..][1..] == t[i + 1..];
        if slots[i].route.Bits() == route.Bits() {
          return Some(slots[i]);
        }
      }
      return None;
    }

    method Register(entry: RouteEntry) returns (r: Result<(), CatalogError>)
      requires Valid()
      modifies this, slots
      ensures Valid()
      ensures r == if Find(old(Map()), entry.route).Some? then Err(DuplicateRoute)
                   else if old(len) == slots.Length then Err(CatalogFull)
                   else Ok(())
      ensures Entries() == if r.Ok? then old(Entries()) + [entry] else old(Entries())
      ensures Map() == if r.Ok? then old(Map()) + [(entry.route, entry.endpoints)] else old(Map())
    {
      var existing := Lookup(entry.route);
      if existing.Some? {
        return Err(DuplicateRoute);
      }
      var at := len;
      if at == slots.Length {
        return Err(CatalogFull);
      }
      AppendKeepsUnique(Map(), (entry.route, entry.endpoints));
      ghost var was, before := Map(), slots[..];
      slots[at] := entry;
      len := at + 1;
      assert Entries() == before[..at] + [entry];
      assert Map() == was + [(entry.route, entry.endpoints)];
      return Ok(());
    }
  }
}
