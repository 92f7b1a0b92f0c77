/** The Google Ads account hierarchy (`get_managers`, `get_clients`): the
    accessible customers become seeds; from each seed a breadth-first walk
    over `customer_client` rows builds `manager_client_map`, an insertion-
    ordered dictionary from customer to the children found under it, which is
    then flattened into (manager_id, client_id) pairs. */
module Hierarchy {

  import opened Frames

  // ---------------------------------------------------------------------
  // get_managers: resource names to customer ids

  const CustomersPrefix: string := "customers/"

  /** The resource name of a customer. */
  function CustomerPath(id: string): string
  {
    CustomersPrefix + id
  }

  predicate NoNewline(s: string) { forall k :: 0 <= k < |s| ==> s[k] != '\n' }

  /** The Ads library's `parse_customer_path`: a full match of
      `^customers/(?P<customer_id>.+?)$` gives its named group, anything else
      the empty dictionary. Python's `$` also matches before one final
      newline, and `.` matches no newline. */
  function ParseCustomerPath(path: string): (fields: map<string, string>)
    ensures fields == map[] || (fields.Keys == {"customer_id"} && |fields["customer_id"]| >= 1)
  {
    if |path| > |CustomersPrefix| && path[..|CustomersPrefix|] == CustomersPrefix then
      var rest := path[|CustomersPrefix|..];
      if NoNewline(rest) then map["customer_id" := rest]
      else if |rest| >= 2 && rest[|rest| - 1] == '\n' && NoNewline(rest[..|rest| - 1]) then
        map["customer_id" := rest[..|rest| - 1]]
      else map[]
    else map[]
  }

  /** `parse_customer_path(name)["customer_id"]`: a name that does not parse
      raises a KeyError. */
  function CustomerIdOf(name: string): Result<string>
  {
    var fields := ParseCustomerPath(name);
    if "customer_id" in fields then Ok(fields["customer_id"]) else Err(MissingKey("customer_id"))
  }

  /** The seed list `get_managers` returns, or the first failure. */
  function ManagersOf(names: seq<string>): Result<seq<string>>
  {
    if names == [] then Ok([])
    else
      var init :- ManagersOf(names[..|names| - 1]);
      var id :- CustomerIdOf(names[|names| - 1]);
      Ok(init + [id])
  }

  /** A well-formed customer id reads back from its resource name. */
  lemma ParseCustomerPathInverse(id: string)
    requires |id| >= 1 && NoNewline(id)
    ensures CustomerIdOf(CustomerPath(id)) == Ok(id)
  {
    var path := CustomerPath(id);
    assert path[..|CustomersPrefix|] == CustomersPrefix;
    assert path[|CustomersPrefix|..] == id;
  }

  /** One id per resource name, in order, each recovered from its name; and
      the call fails exactly when some name does not parse. */
  lemma {:induction false} ManagersOfShape(names: seq<string>)
    ensures ManagersOf(names).Ok? <==> forall i :: 0 <= i < |names| ==> CustomerIdOf(names[i]).Ok?
    ensures ManagersOf(names).Ok? ==>
      && |ManagersOf(names).value| == |names|
      && forall i :: 0 <= i < |names| ==> CustomerIdOf(names[i]) == Ok(ManagersOf(names).value[i])
  {
    if names != [] {
      var init := names[..|names| - 1];
      ManagersOfShape(init);
      assert forall i :: 0 <= i < |init| ==> init[i] == names[i];
    }
  }

  /** For well-formed ids, `get_managers` over their resource names gives
      back exactly those ids, in order. */
  lemma {:induction false} ManagersOfPaths(ids: seq<string>)
    requires forall i :: 0 <= i < |ids| ==> |ids[i]| >= 1 && NoNewline(ids[i])
    ensures ManagersOf(seq(|ids|, i requires 0 <= i < |ids| => CustomerPath(ids[i]))) == Ok(ids)
  {
    var names := seq(|ids|, i requires 0 <= i < |ids| => CustomerPath(ids[i]));
    if ids != [] {
      var init := ids[..|ids| - 1];
      ManagersOfPaths(init);
      assert names[..|names| - 1] == seq(|init|, i requires 0 <= i < |init| => CustomerPath(init[i]));
      ParseCustomerPathInverse(ids[|ids| - 1]);
      assert init + [ids[|ids| - 1]] == ids;
    }
  }

  /** `get_managers`: append the parsed id of every accessible resource name. */
  method GetManagers(names: seq<string>) returns (seeds: Result<seq<string>>)
    ensures seeds == ManagersOf(names)
  {
    var ids: seq<string> := [];
    for i := 0 to |names|
      invariant ManagersOf(names[..i]) == Ok(ids)
    {
      assert names[..i + 1][..i] == names[..i];
      var id := CustomerIdOf(names[i]);
      if id.Err? {
        ManagersFailFirst(names, i + 1);
        return Err(id.error);
      }
      ids := ids + [id.value];
    }
    assert names[..|names|] == names;
    seeds := Ok(ids);
  }

  /** Once a prefix of the names fails, the whole list fails the same way. */
  lemma {:induction false} ManagersFailFirst(names: seq<string>, n: nat)
    requires 1 <= n <= |names|
    requires ManagersOf(names[..n]).Err?
    ensures ManagersOf(names) == ManagersOf(names[..n])
    decreases |names| - n
  {
    if n == |names| {
      assert names[..n] == names;
    } else {
      assert names[..n + 1][..n] == names[..n];
      ManagersFailFirst(names, n + 1);
    }
  }

  // ---------------------------------------------------------------------
  // get_clients: the breadth-first walk

  /** A key of `manager_client_map`: the seed is a text id (from the
      resource name), every enqueued child an integer id. Python never
      considers the two equal. */
  datatype CustomerKey = StrKey(text: string) | IntKey(number: int)

  /** The fields of a `customer_client` row the walk reads. */
  datatype ClientRow = ClientRow(id: int, level: int, manager: bool)

  /** A map entry's element: a row as appended, or, after reshaping, the
      child's id (None for a manager child). */
  datatype Item = Client(row: ClientRow) | ClientId(id: Option<int>)

  datatype Entry = Entry(key: CustomerKey, items: seq<Item>)

  /** An insertion-ordered dictionary without repeated keys. */
  type Dict = seq<Entry>

  predicate HasKey(d: Dict, k: CustomerKey)
  {
    exists i :: 0 <= i < |d| && d[i].key == k
  }

  function Get(d: Dict, k: CustomerKey): (v: Option<seq<Item>>)
    ensures v.Some? <==> HasKey(d, k)
    ensures v.Some? ==> exists i :: 0 <= i < |d| && d[i] == Entry(k, v.value)
  {
    if d == [] then None
    else if d[0].key == k then Some(d[0].items)
    else
      HasKeyTail(d, k);
      Get(d[1..], k)
  }

  /** Past a first entry with another key, the keys are those of the rest. */
  lemma HasKeyTail(d: Dict, k: CustomerKey)
    requires d != [] && d[0].key != k
    ensures HasKey(d, k) <==> HasKey(d[1..], k)
    ensures forall it :: Entry(k, it) in d <==> Entry(k, it) in d[1..]
  {
    if HasKey(d, k) {
      var i :| 0 <= i < |d| && d[i].key == k;
      assert d[1..][i - 1].key == k;
    }
    if HasKey(d[1..], k) {
      var i :| 0 <= i < |d[1..]| && d[1..][i].key == k;
      assert d[i + 1].key == k;
    }
  }

  function GetOr(d: Dict, k: CustomerKey): seq<Item>
  {
    match Get(d, k)
    case None => []
    case Some(v) => v
  }

  /** `d[k] = v`: replaces the value in place when `k` is a key, otherwise
      adds the entry at the end. */
  function Put(d: Dict, k: CustomerKey, v: seq<Item>): (e: Dict)
    ensures Get(e, k) == Some(v)
    ensures HasKey(d, k) ==> |e| == |d|
    ensures !HasKey(d, k) ==> e == d + [Entry(k, v)]
  {
    if d == [] then [Entry(k, v)]
    else if d[0].key == k then [Entry(k, v)] + d[1..]
    else
      HasKeyTail(d, k);
      var rest := Put(d[1..], k, v);
      PutCons(d[0], d[1..], rest, k, v);
      Split(d);
      [d[0]] + rest
  }

  lemma Split<T>(s: seq<T>)
    requires s != []
    ensures s == [s[0]] + s[1..]
  {
  }

  /** The step of `Put` past an entry of another key. */
  lemma PutCons(x: Entry, d: Dict, rest: Dict, k: CustomerKey, v: seq<Item>)
    requires x.key != k
    requires Get(rest, k) == Some(v)
    requires HasKey(d, k) ==> |rest| == |d|
    requires !HasKey(d, k) ==> rest == d + [Entry(k, v)]
    ensures Get([x] + rest, k) == Some(v)
    ensures HasKey([x] + d, k) ==> |[x] + rest| == |[x] + d|
    ensures !HasKey([x] + d, k) ==> [x] + rest == [x] + d + [Entry(k, v)]
  {
    GetCons(x, rest, k);
    HasKeyTail([x] + d, k);
    assert ([x] + d)[1..] == d;
  }

  /** The position of the first entry of `k`. */
  function FirstIndex(d: Dict, k: CustomerKey): (i: nat)
    requires HasKey(d, k)
    ensures i < |d| && d[i].key == k
    ensures forall j :: 0 <= j < i ==> d[j].key != k
  {
    if d[0].key == k then 0
    else
      HasKeyTail(d, k);
      var i := 1 + FirstIndex(d[1..], k);
      assert forall j :: 1 <= j < i ==> d[j] == d[1..][j - 1];
      i
  }

  /** `d[k] = v` on an existing key replaces its entry where it stands:
      every other entry keeps its place. */
  lemma {:induction false} PutInPlace(d: Dict, k: CustomerKey, v: seq<Item>)
    requires HasKey(d, k)
    ensures Put(d, k, v) == d[FirstIndex(d, k) := Entry(k, v)]
  {
    if d[0].key == k {
      assert Put(d, k, v) == [Entry(k, v)] + d[1..];
    } else {
      HasKeyTail(d, k);
      PutInPlace(d[1..], k, v);
      assert Put(d, k, v) == [d[0]] + d[1..][FirstIndex(d[1..], k) := Entry(k, v)];
    }
  }

  /** `d[k] = v` leaves every other key's value alone. */
  lemma {:induction false} PutOther(d: Dict, k: CustomerKey, v: seq<Item>, k': CustomerKey)
    requires k' != k
    ensures Get(Put(d, k, v), k') == Get(d, k')
  {
    if d != [] && d[0].key != k {
      PutOther(d[1..], k, v, k');
      GetCons(d[0], Put(d[1..], k, v), k');
    } else if d != [] {
      GetCons(Entry(k, v), d[1..], k');
    }
  }

  lemma GetCons(x: Entry, rest: Dict, k: CustomerKey)
    ensures Get([x] + rest, k) == if x.key == k then Some(x.items) else Get(rest, k)
  {
    assert ([x] + rest)[1..] == rest;
  }

  /** The work queue and the map. */
  datatype State = State(queue: seq<CustomerKey>, dict: Dict)

  /** One row of the search response for `current`: a level-0 row (the
      customer itself) is skipped; any other row is appended to the entry of
      `current`, created empty if missing, and a level-1 manager child whose
      id is not yet a key is enqueued. */
  function ProcessRow(current: CustomerKey, st: State, r: ClientRow): State
  {
    if r.level == 0 then st
    else
      var d := Put(st.dict, current, GetOr(st.dict, current) + [Client(r)]);
      var q := if r.manager && Get(d, IntKey(r.id)).None? && r.level == 1 then st.queue + [IntKey(r.id)] else st.queue;
      State(q, d)
  }

  /** The rows of one response, in response order. */
  function ProcessRows(current: CustomerKey, st: State, rows: seq<ClientRow>): State
  {
    if rows == [] then st
    else ProcessRow(current, ProcessRows(current, st, rows[..|rows| - 1]), rows[|rows| - 1])
  }

  /** The lambda of the reshaping step, over a whole entry: a row becomes
      its id, or None for a manager; an element already reshaped has no
      `.manager` and raises an AttributeError. */
  function Convert(items: seq<Item>): (r: Result<seq<Item>>)
    ensures r.Ok? <==> forall i :: 0 <= i < |items| ==> items[i].Client?
    ensures r.Err? ==> r.error == NotAClientRow
    ensures r.Ok? ==> |r.value| == |items| && forall i :: 0 <= i < |items| ==> r.value[i].ClientId?
  {
    if items == [] then Ok([])
    else
      var init := Convert(items[..|items| - 1]);
      var last := items[|items| - 1];
      if init.Err? then Err(init.error)
      else if last.ClientId? then Err(NotAClientRow)
      else Ok(init.value + [ClientId(if last.row.manager then None else Some(last.row.id))])
  }

  /** One turn of the walk: pop the head of the queue, search it, process
      the rows, then replace the popped customer's entry with the reshaped
      entry of the SEED. */
  function Visit(seed: CustomerKey, responses: map<CustomerKey, seq<ClientRow>>, st: State): Result<State>
    requires st.queue != []
  {
    var current := st.queue[0];
    if current !in responses then Err(SearchFailed)
    else
      var st1 := ProcessRows(current, State(st.queue[1..], st.dict), responses[current]);
      match Get(st1.dict, seed)
      case None => Err(MissingManagerEntry)
      case Some(items) =>
        var converted :- Convert(items);
        Ok(State(st1.queue, Put(st1.dict, current, converted)))
  }

  /** The `while` loop: visit until the queue is empty, with at most `fuel` searches. */
  function Walk(seed: CustomerKey, responses: map<CustomerKey, seq<ClientRow>>, st: State, fuel: nat): Result<Dict>
    decreases fuel
  {
    if st.queue == [] then Ok(st.dict)
    else if fuel == 0 then Err(OutOfFuel)
    else
      var next :- Visit(seed, responses, st);
      Walk(seed, responses, next, fuel - 1)
  }

  /** The walk from one seed: queue `[seed]`, empty map. */
  function SeedWalk(seed: string, responses: map<CustomerKey, seq<ClientRow>>, fuel: nat): Result<Dict>
  {
    Walk(StrKey(seed), responses, State([StrKey(seed)], []), fuel)
  }

  /** Two searches always settle the walk (SeedWalkOutcome): a second visit
      reads the seed entry after it was reshaped and raises. */
  const WalkFuel: nat := 2

  /** The walk of every seed, in seed order. */
  function SeedWalks(seeds: seq<string>, responses: map<CustomerKey, seq<ClientRow>>): (walks: seq<Result<Dict>>)
    ensures |walks| == |seeds|
  {
    seq(|seeds|, i requires 0 <= i < |seeds| => SeedWalk(seeds[i], responses, WalkFuel))
  }

  /** The `for` loop over seeds, given each seed's walk: the map is reset
      per seed, so only the last map remains; the first failing walk aborts. */
  function LastMap(walks: seq<Result<Dict>>): Result<Dict>
    requires walks != []
  {
    var last := walks[|walks| - 1];
    if |walks| == 1 then last
    else match LastMap(walks[..|walks| - 1])
      case Err(e) => Err(e)
      case Ok(_) => last
  }

  /** One row of the `df_client` result. */
  datatype Pair = Pair(managerId: CustomerKey, clientId: string)

  predicate AllConverted(d: Dict)
  {
    forall i, j :: 0 <= i < |d| && 0 <= j < |d[i].items| ==> d[i].items[j].ClientId?
  }

  /** `str()` of a reshaped element. */
  function ItemText(it: Item): string
    requires it.ClientId?
  {
    match it.id
    case None => "None"
    case Some(n) => IntText(n)
  }

  /** The pairs of one entry, in list order. */
  function EntryPairs(key: CustomerKey, items: seq<Item>): seq<Pair>
    requires forall j :: 0 <= j < |items| ==> items[j].ClientId?
  {
    if items == [] then []
    else EntryPairs(key, items[..|items| - 1]) + [Pair(key, ItemText(items[|items| - 1]))]
  }

  /** One pair per element per key, keys in insertion order. */
  function Flatten(d: Dict): seq<Pair>
    requires AllConverted(d)
  {
    if d == [] then []
    else
      assert forall i :: 0 <= i < |d[1..]| ==> d[1..][i] == d[i + 1];
      EntryPairs(d[0].key, d[0].items) + Flatten(d[1..])
  }

  /** `get_clients`: the flattened map of the last seed. With no seeds the
      map is never bound (UnboundLocalError). */
  function ClientsOf(seeds: seq<string>, responses: map<CustomerKey, seq<ClientRow>>): Result<seq<Pair>>
  {
    if seeds == [] then Err(NoSeeds)
    else
      var d :- LastMap(SeedWalks(seeds, responses));
      LastMapConverted(seeds, responses);
      Ok(Flatten(d))
  }

  // ---------------------------------------------------------------------
  // A direct description of the walk

  /** The non-level-0 rows, in response order. */
  function Kids(rows: seq<ClientRow>): (kids: seq<ClientRow>)
    ensures |kids| <= |rows|
    ensures forall i :: 0 <= i < |kids| ==> kids[i].level != 0
  {
    if rows == [] then []
    else
      var last := rows[|rows| - 1];
      Kids(rows[..|rows| - 1]) + (if last.level != 0 then [last] else [])
  }

  /** The children the seed's response enqueues: its level-1 managers. */
  function Queued(rows: seq<ClientRow>): (q: seq<CustomerKey>)
    ensures forall i :: 0 <= i < |q| ==> q[i].IntKey?
  {
    if rows == [] then []
    else
      var last := rows[|rows| - 1];
      Queued(rows[..|rows| - 1]) + (if last.level == 1 && last.manager then [IntKey(last.id)] else [])
  }

  /** The seed's entry before reshaping: its children as appended. */
  function ClientItems(rows: seq<ClientRow>): (items: seq<Item>)
    ensures items != [] <==> Kids(rows) != []
  {
    if rows == [] then []
    else
      var last := rows[|rows| - 1];
      ClientItems(rows[..|rows| - 1]) + (if last.level != 0 then [Client(last)] else [])
  }

  function ChildId(r: ClientRow): Item
  {
    ClientId(if r.manager then None else Some(r.id))
  }

  /** The seed's entry after reshaping. */
  function ConvertedItems(rows: seq<ClientRow>): (items: seq<Item>)
    ensures items != [] <==> Kids(rows) != []
    ensures forall j :: 0 <= j < |items| ==> items[j].ClientId?
  {
    if rows == [] then []
    else
      var last := rows[|rows| - 1];
      ConvertedItems(rows[..|rows| - 1]) + (if last.level != 0 then [ChildId(last)] else [])
  }

  /** The outcome of the walk from `seed`, stated without iteration: the
      seed must be searchable and have at least one child; with no manager
      child the map is the seed's reshaped entry alone; with one, the
      second search runs and the reshaping of the seed's entry raises. */
  function DirectChildren(seed: string, responses: map<CustomerKey, seq<ClientRow>>): Result<Dict>
  {
    var key := StrKey(seed);
    if key !in responses then Err(SearchFailed)
    else
      var rows := responses[key];
      if Kids(rows) == [] then Err(MissingManagerEntry)
      else if Queued(rows) == [] then Ok([Entry(key, ConvertedItems(rows))])
      else if Queued(rows)[0] !in responses then Err(SearchFailed)
      else Err(NotAClientRow)
  }

  /** The `df_client` rows of a seed whose walk succeeds. */
  function ChildPairs(seed: string, rows: seq<ClientRow>): seq<Pair>
  {
    if rows == [] then []
    else
      var last := rows[|rows| - 1];
      ChildPairs(seed, rows[..|rows| - 1]) + (if last.level != 0 then [Pair(StrKey(seed), ItemText(ChildId(last)))] else [])
  }

  /** Rows processed for one customer leave every other entry alone. */
  lemma {:induction false} ProcessRowsOtherKey(current: CustomerKey, st: State, rows: seq<ClientRow>, k: CustomerKey)
    requires k != current
    ensures Get(ProcessRows(current, st, rows).dict, k) == Get(st.dict, k)
  {
    if rows != [] {
      var prior := ProcessRows(current, st, rows[..|rows| - 1]);
      ProcessRowsOtherKey(current, st, rows[..|rows| - 1], k);
      PutOther(prior.dict, current, GetOr(prior.dict, current) + [Client(rows[|rows| - 1])], k);
    }
  }

  /** One row: a level-0 row changes nothing; any other row is appended to
      the entry of `current`, and its id is enqueued exactly when it is a
      level-1 manager whose id was not already a key (nor `current`). */
  lemma ProcessRowEffect(current: CustomerKey, st: State, r: ClientRow)
    ensures r.level == 0 ==> ProcessRow(current, st, r) == st
    ensures r.level != 0 ==>
      && Get(ProcessRow(current, st, r).dict, current) == Some(GetOr(st.dict, current) + [Client(r)])
      && ProcessRow(current, st, r).queue == st.queue +
           (if r.manager && r.level == 1 && IntKey(r.id) != current && !HasKey(st.dict, IntKey(r.id))
            then [IntKey(r.id)] else [])
  {
    if r.level != 0 && IntKey(r.id) != current {
      PutOther(st.dict, current, GetOr(st.dict, current) + [Client(r)], IntKey(r.id));
    }
  }

  /** The queue is FIFO: processing rows only appends behind what is there. */
  lemma {:induction false} ProcessRowsAppendsToQueue(current: CustomerKey, st: State, rows: seq<ClientRow>)
    ensures st.queue <= ProcessRows(current, st, rows).queue
  {
    if rows != [] {
      ProcessRowsAppendsToQueue(current, st, rows[..|rows| - 1]);
    }
  }

  /** The map of the seed alone: its children so far, if it has any. */
  function SeedDict(seed: string, rows: seq<ClientRow>): Dict
  {
    if Kids(rows) == [] then [] else [Entry(StrKey(seed), ClientItems(rows))]
  }

  /** One more non-level-0 row of the seed's response. */
  lemma SeedRowStep(seed: string, init: seq<ClientRow>, last: ClientRow)
    requires last.level != 0
    ensures ProcessRow(StrKey(seed), State(Queued(init), SeedDict(seed, init)), last) ==
      State(Queued(init) + (if last.level == 1 && last.manager then [IntKey(last.id)] else []),
            [Entry(StrKey(seed), ClientItems(init) + [Client(last)])])
  {
    var key := StrKey(seed);
    var a := ClientItems(init);
    var d0 := SeedDict(seed, init);
    assert GetOr(d0, key) == a;
    var d := [Entry(key, a + [Client(last)])];
    assert Put(d0, key, a + [Client(last)]) == d;
    assert Get(d, IntKey(last.id)) == None;
  }

  /** The seed's response, processed into the fresh map: the children are
      appended in response order under the seed, and exactly the level-1
      managers are enqueued (no integer id is a key yet). */
  lemma {:induction false} ProcessSeedRows(seed: string, rows: seq<ClientRow>)
    ensures ProcessRows(StrKey(seed), State([], []), rows) == State(Queued(rows), SeedDict(seed, rows))
  {
    if rows != [] {
      var init := rows[..|rows| - 1];
      var last := rows[|rows| - 1];
      ProcessSeedRows(seed, init);
      assert ProcessRows(StrKey(seed), State([], []), rows) == ProcessRow(StrKey(seed), State(Queued(init), SeedDict(seed, init)), last);
      if last.level != 0 {
        SeedRowStep(seed, init, last);
        assert Kids(rows) == Kids(init) + [last];
        assert ClientItems(rows) == ClientItems(init) + [Client(last)];
        assert Queued(rows) == Queued(init) + (if last.level == 1 && last.manager then [IntKey(last.id)] else []);
      } else {
        assert Kids(rows) == Kids(init) && ClientItems(rows) == ClientItems(init) && Queued(rows) == Queued(init);
      }
    }
  }

  lemma {:induction false} ConvertClientItems(rows: seq<ClientRow>)
    ensures Convert(ClientItems(rows)) == Ok(ConvertedItems(rows))
  {
    if rows != [] {
      var init := rows[..|rows| - 1];
      var last := rows[|rows| - 1];
      ConvertClientItems(init);
      var items := ClientItems(rows);
      if last.level != 0 {
        assert items == ClientItems(init) + [Client(last)];
        assert items[..|items| - 1] == ClientItems(init);
        assert items[|items| - 1] == Client(last);
        assert ConvertedItems(rows) == ConvertedItems(init) + [ChildId(last)];
        assert Convert(items) == Ok(ConvertedItems(init) + [ChildId(last)]);
      } else {
        assert items == ClientItems(init);
        assert ConvertedItems(rows) == ConvertedItems(init);
      }
    }
  }

  /** The first visit: the seed's children, reshaped, under the seed. */
  lemma FirstVisit(seed: string, responses: map<CustomerKey, seq<ClientRow>>)
    requires StrKey(seed) in responses
    ensures var rows := responses[StrKey(seed)];
      Visit(StrKey(seed), responses, State([StrKey(seed)], [])) ==
        if Kids(rows) == [] then Err(MissingManagerEntry)
        else Ok(State(Queued(rows), [Entry(StrKey(seed), ConvertedItems(rows))]))
  {
    var key := StrKey(seed);
    var rows := responses[key];
    assert [key][1..] == [];
    ProcessSeedRows(seed, rows);
    if Kids(rows) != [] {
      ConvertClientItems(rows);
      var d := [Entry(key, ClientItems(rows))];
      assert Get(d, key) == Some(ClientItems(rows));
      assert Put(d, key, ConvertedItems(rows)) == [Entry(key, ConvertedItems(rows))];
    }
  }

  /** A later visit: after its search, it reads the seed's entry, which is
      already reshaped, and raises. */
  lemma LaterVisit(seed: CustomerKey, responses: map<CustomerKey, seq<ClientRow>>, st: State)
    requires st.queue != [] && st.queue[0] != seed
    requires |st.dict| == 1 && st.dict[0].key == seed && st.dict[0].items != [] && st.dict[0].items[0].ClientId?
    ensures Visit(seed, responses, st) == Err(if st.queue[0] in responses then NotAClientRow else SearchFailed)
  {
    var current := st.queue[0];
    if current in responses {
      var start := State(st.queue[1..], st.dict);
      ProcessRowsOtherKey(current, start, responses[current], seed);
      assert Get(st.dict, seed) == Some(st.dict[0].items);
    }
  }

  /** With two or more searches allowed, the walk from a seed is exactly the
      direct description. */
  lemma SeedWalkOutcome(seed: string, responses: map<CustomerKey, seq<ClientRow>>, fuel: nat)
    requires fuel >= 2
    ensures SeedWalk(seed, responses, fuel) == DirectChildren(seed, responses)
  {
    var key := StrKey(seed);
    var st0 := State([key], []);
    if key !in responses {
      assert Visit(key, responses, st0) == Err(SearchFailed);
    } else {
      var rows := responses[key];
      FirstVisit(seed, responses);
      if Kids(rows) != [] {
        var next := State(Queued(rows), [Entry(key, ConvertedItems(rows))]);
        assert Walk(key, responses, st0, fuel) == Walk(key, responses, next, fuel - 1);
        if Queued(rows) != [] {
          LaterVisit(key, responses, next);
        }
      }
    }
  }

  /** The seed loop succeeds exactly when every walk does, and then yields
      the last walk's map. */
  lemma {:induction false} LastMapShape(walks: seq<Result<Dict>>)
    requires walks != []
    ensures LastMap(walks).Ok? <==> forall i :: 0 <= i < |walks| ==> walks[i].Ok?
    ensures LastMap(walks).Ok? ==> LastMap(walks) == walks[|walks| - 1]
  {
    if |walks| > 1 {
      var init := walks[..|walks| - 1];
      LastMapShape(init);
      assert forall i :: 0 <= i < |init| ==> init[i] == walks[i];
    }
  }

  /** A failing walk decides the seed loop. */
  lemma {:induction false} LastMapFailureIsFinal(walks: seq<Result<Dict>>, n: nat)
    requires 1 <= n <= |walks|
    requires LastMap(walks[..n]).Err?
    ensures LastMap(walks) == LastMap(walks[..n])
    decreases |walks| - n
  {
    if n == |walks| {
      assert walks[..n] == walks;
    } else {
      assert walks[..n + 1][..n] == walks[..n];
      LastMapFailureIsFinal(walks, n + 1);
    }
  }

  /** Every seed's walk is its direct description. */
  lemma SeedWalksDirect(seeds: seq<string>, responses: map<CustomerKey, seq<ClientRow>>)
    ensures forall i :: 0 <= i < |seeds| ==> SeedWalks(seeds, responses)[i] == DirectChildren(seeds[i], responses)
  {
    forall i | 0 <= i < |seeds| ensures SeedWalks(seeds, responses)[i] == DirectChildren(seeds[i], responses) {
      SeedWalkOutcome(seeds[i], responses, WalkFuel);
    }
  }

  lemma LastMapConverted(seeds: seq<string>, responses: map<CustomerKey, seq<ClientRow>>)
    requires seeds != []
    ensures LastMap(SeedWalks(seeds, responses)).Ok? ==> AllConverted(LastMap(SeedWalks(seeds, responses)).value)
  {
    var walks := SeedWalks(seeds, responses);
    LastMapShape(walks);
    if LastMap(walks).Ok? {
      var last := seeds[|seeds| - 1];
      SeedWalksDirect(seeds, responses);
      var d := DirectChildren(last, responses);
      assert LastMap(walks) == d;
      var items := ConvertedItems(responses[StrKey(last)]);
      assert d.value == [Entry(StrKey(last), items)];
    }
  }

  lemma {:induction false} EntryPairsOfSeed(seed: string, rows: seq<ClientRow>)
    ensures EntryPairs(StrKey(seed), ConvertedItems(rows)) == ChildPairs(seed, rows)
  {
    if rows != [] {
      var init := rows[..|rows| - 1];
      EntryPairsOfSeed(seed, init);
      var items := ConvertedItems(rows);
      var last := rows[|rows| - 1];
      if last.level != 0 {
        assert items == ConvertedItems(init) + [ChildId(last)];
        assert items[..|items| - 1] == ConvertedItems(init);
        assert ChildPairs(seed, rows) == ChildPairs(seed, init) + [Pair(StrKey(seed), ItemText(ChildId(last)))];
      } else {
        assert items == ConvertedItems(init);
        assert ChildPairs(seed, rows) == ChildPairs(seed, init);
      }
    }
  }

  /** The output of `get_clients`: defined exactly when every seed's walk
      succeeds, and then one pair per child of the last seed, in response
      order. */
  lemma ClientsOfLastSeed(seeds: seq<string>, responses: map<CustomerKey, seq<ClientRow>>)
    requires seeds != []
    ensures ClientsOf(seeds, responses).Ok? <==> forall i :: 0 <= i < |seeds| ==> DirectChildren(seeds[i], responses).Ok?
    ensures ClientsOf(seeds, responses).Ok? ==>
      var last := seeds[|seeds| - 1];
      ClientsOf(seeds, responses).value == ChildPairs(last, responses[StrKey(last)])
  {
    var walks := SeedWalks(seeds, responses);
    LastMapShape(walks);
    SeedWalksDirect(seeds, responses);
    var last := seeds[|seeds| - 1];
    if ClientsOf(seeds, responses).Ok? {
      var rows := responses[StrKey(last)];
      var e := Entry(StrKey(last), ConvertedItems(rows));
      assert Flatten([e]) == EntryPairs(e.key, e.items) + Flatten([]);
      EntryPairsOfSeed(last, rows);
    }
  }

  /** `str()` of an integer id is never the text "None". */
  lemma IdTextIsNotNone(n: int)
    ensures IntText(n) != "None"
  {
    IntTextRoundTrip(n);
    assert ParseInt("None") == None by {
      assert !IsDigit("None"[0]) && !IsDigit("None"[1]);
    }
  }

  lemma {:induction false} ChildPairsAt(seed: string, rows: seq<ClientRow>)
    ensures |ChildPairs(seed, rows)| == |Kids(rows)|
    ensures forall i :: 0 <= i < |Kids(rows)| ==> ChildPairs(seed, rows)[i] == Pair(StrKey(seed), ItemText(ChildId(Kids(rows)[i])))
  {
    if rows != [] {
      ChildPairsAt(seed, rows[..|rows| - 1]);
    }
  }

  /** Each output pair names the seed and stands for one child: the text
      "None" exactly for a manager child, otherwise the child's id, which
      reads back from the text. */
  lemma ChildPairsDecode(seed: string, rows: seq<ClientRow>, i: nat)
    requires i < |Kids(rows)|
    ensures |ChildPairs(seed, rows)| == |Kids(rows)|
    ensures ChildPairs(seed, rows)[i].managerId == StrKey(seed)
    ensures ChildPairs(seed, rows)[i].clientId == "None" <==> Kids(rows)[i].manager
    ensures !Kids(rows)[i].manager ==> ParseInt(ChildPairs(seed, rows)[i].clientId) == Some(Kids(rows)[i].id)
  {
    ChildPairsAt(seed, rows);
    var kid := Kids(rows)[i];
    IdTextIsNotNone(kid.id);
    IntTextRoundTrip(kid.id);
  }

  // ---------------------------------------------------------------------
  // The imperative walk

  /** One turn of the `while` loop: pop, search, append the rows, reshape. */
  method VisitHead(seed: CustomerKey, responses: map<CustomerKey, seq<ClientRow>>, queue0: seq<CustomerKey>, dict0: Dict)
    returns (next: Result<State>)
    requires queue0 != []
    ensures next == Visit(seed, responses, State(queue0, dict0))
  {
    var current := queue0[0];
    var queue := queue0[1..];
    var dict := dict0;
    if current !in responses {
      return Err(SearchFailed);
    }
    var rows := responses[current];
    for k := 0 to |rows|
      invariant State(queue, dict) == ProcessRows(current, State(queue0[1..], dict0), rows[..k])
    {
      assert rows[..k + 1][..k] == rows[..k];
      var row := rows[k];
      if row.level != 0 {
        dict := Put(dict, current, GetOr(dict, current) + [Client(row)]);
        if row.manager && Get(dict, IntKey(row.id)).None? && row.level == 1 {
          queue := queue + [IntKey(row.id)];
        }
      }
    }
    assert rows[..|rows|] == rows;
    var entry := Get(dict, seed);
    if entry.None? {
      return Err(MissingManagerEntry);
    }
    var converted := Convert(entry.value);
    if converted.Err? {
      return Err(converted.error);
    }
    next := Ok(State(queue, Put(dict, current, converted.value)));
  }

  /** The `while` loop for one seed. It ends after at most two turns: the
      second turn always raises. */
  method WalkSeed(seedId: string, responses: map<CustomerKey, seq<ClientRow>>) returns (outcome: Result<Dict>)
    ensures outcome == SeedWalk(seedId, responses, WalkFuel)
  {
    SeedWalkOutcome(seedId, responses, WalkFuel);
    var seed := StrKey(seedId);
    var queue: seq<CustomerKey> := [seed];
    var dict: Dict := [];
    var visits := 0;
    while queue != []
      invariant visits <= 1
      invariant visits == 0 ==> queue == [seed] && dict == []
      invariant visits == 1 ==> (&& seed in responses && Kids(responses[seed]) != []
                                 && queue == Queued(responses[seed])
                                 && dict == [Entry(seed, ConvertedItems(responses[seed]))])
      decreases 1 - visits
    {
      var next := VisitHead(seed, responses, queue, dict);
      if visits == 1 {
        LaterVisit(seed, responses, State(queue, dict));
      } else if seed in responses {
        FirstVisit(seedId, responses);
      }
      if next.Err? {
        return Err(next.error);
      }
      queue, dict := next.value.queue, next.value.dict;
      visits := visits + 1;
    }
    outcome := Ok(dict);
  }

  /** One turn of the seed loop: a failing walk decides the loop, a
      succeeding one becomes the map so far. */
  lemma LastMapStep(walks: seq<Result<Dict>>, s: nat, dict: Dict)
    requires s < |walks|
    requires s > 0 ==> LastMap(walks[..s]) == Ok(dict)
    ensures walks[s].Err? ==> LastMap(walks) == walks[s]
    ensures walks[s].Ok? ==> LastMap(walks[..s + 1]) == walks[s]
  {
    assert walks[..s + 1][..s] == walks[..s];
    if walks[s].Err? {
      LastMapFailureIsFinal(walks, s + 1);
    }
  }

  /** The `for` loop over seeds: walk each, resetting the map, and keep the
      last map; the first failing walk raises out of the loop. */
  method WalkSeeds(seeds: seq<string>, responses: map<CustomerKey, seq<ClientRow>>) returns (outcome: Result<Dict>)
    requires seeds != []
    ensures outcome == LastMap(SeedWalks(seeds, responses))
  {
    ghost var walks := SeedWalks(seeds, responses);
    var dict: Dict := [];
    for s := 0 to |seeds|
      invariant s > 0 ==> LastMap(walks[..s]) == Ok(dict)
    {
      var walked := WalkSeed(seeds[s], responses);
      assert walked == walks[s];
      LastMapStep(walks, s, dict);
      if walked.Err? {
        return walked;
      }
      dict := walked.value;
    }
    assert walks[..|seeds|] == walks;
    outcome := Ok(dict);
  }

  /** `get_clients`: walk every seed, keep the last seed's map, flatten it. */
  method GetClients(seeds: seq<string>, responses: map<CustomerKey, seq<ClientRow>>) returns (outcome: Result<seq<Pair>>)
    ensures outcome == ClientsOf(seeds, responses)
  {
    if seeds == [] {
      return Err(NoSeeds);
    }
    var walked := WalkSeeds(seeds, responses);
    match walked {
      case Err(e) =>
        return Err(e);
      case Ok(dict) =>
        LastMapConverted(seeds, responses);
        outcome := Ok(Flatten(dict));
    }
  }

  // ---------------------------------------------------------------------
  // Two hierarchies

  /** `get_clients` on one seed: the seed's direct description decides. */
  lemma ClientsOfOneSeed(seed: string, responses: map<CustomerKey, seq<ClientRow>>)
    ensures ClientsOf([seed], responses) ==
      match DirectChildren(seed, responses)
      case Err(e) => Err(e)
      case Ok(_) => Ok(ChildPairs(seed, responses[StrKey(seed)]))
  {
    SeedWalkOutcome(seed, responses, WalkFuel);
    assert SeedWalks([seed], responses) == [SeedWalk(seed, responses, WalkFuel)];
    ClientsOfLastSeed([seed], responses);
  }

  lemma FlatRows(seed: string, rootId: int, a: int, b: int)
    ensures var rows := [ClientRow(rootId, 0, true), ClientRow(a, 1, false), ClientRow(b, 1, false)];
      && DirectChildren(seed, map[StrKey(seed) := rows]).Ok?
      && ChildPairs(seed, rows) == [Pair(StrKey(seed), IntText(a)), Pair(StrKey(seed), IntText(b))]
  {
    var root, ra, rb := ClientRow(rootId, 0, true), ClientRow(a, 1, false), ClientRow(b, 1, false);
    var rows := [root, ra, rb];
    assert rows[..2] == [root, ra] && [root, ra][..1] == [root] && [root][..0] == [];
    assert Kids([root]) == [] && Queued([root]) == [];
    assert Kids([root, ra]) == [ra] && Queued([root, ra]) == [];
    assert Kids(rows) == [ra, rb] && Queued(rows) == [];
    ChildPairsAt(seed, rows);
  }

  /** A seed with two plain client accounts: one pair per client, the
      seed's own level-0 row left out. */
  lemma FlatHierarchy(seed: string, rootId: int, a: int, b: int)
    ensures ClientsOf([seed], map[StrKey(seed) := [ClientRow(rootId, 0, true), ClientRow(a, 1, false), ClientRow(b, 1, false)]])
            == Ok([Pair(StrKey(seed), IntText(a)), Pair(StrKey(seed), IntText(b))])
  {
    FlatRows(seed, rootId, a, b);
    ClientsOfOneSeed(seed, map[StrKey(seed) := [ClientRow(rootId, 0, true), ClientRow(a, 1, false), ClientRow(b, 1, false)]]);
  }

  lemma NestedRows(seed: string, rootId: int, sub: int, subRows: seq<ClientRow>)
    ensures DirectChildren(seed, map[StrKey(seed) := [ClientRow(rootId, 0, true), ClientRow(sub, 1, true)], IntKey(sub) := subRows])
            == Err(NotAClientRow)
  {
    var root, rs := ClientRow(rootId, 0, true), ClientRow(sub, 1, true);
    var rows := [root, rs];
    assert rows[..1] == [root] && [root][..0] == [];
    assert Kids([root]) == [] && Queued([root]) == [];
    assert Kids(rows) == [rs] && Queued(rows) == [IntKey(sub)];
  }

  /** A seed with a sub-manager: whatever the sub-manager's search returns,
      the reshaping then reads the seed's already reshaped entry and raises. */
  lemma NestedHierarchyCrashes(seed: string, rootId: int, sub: int, subRows: seq<ClientRow>)
    ensures ClientsOf([seed], map[StrKey(seed) := [ClientRow(rootId, 0, true), ClientRow(sub, 1, true)], IntKey(sub) := subRows])
            == Err(NotAClientRow)
  {
    NestedRows(seed, rootId, sub, subRows);
    ClientsOfOneSeed(seed, map[StrKey(seed) := [ClientRow(rootId, 0, true), ClientRow(sub, 1, true)], IntKey(sub) := subRows]);
  }
}
