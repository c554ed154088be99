/** Which arm a training config selects, and flags that select nothing. */
module FlagSearch {
  import opened Verdicts

  /** A parsed TOML value. A scalar only matters for whether Python reads it as true. */
  datatype Node = Table(entries: seq<Entry>) | Array(items: seq<Node>) | Scalar(truthy: bool)
  datatype Entry = Entry(key: string, value: Node)

  /** Where a value sits in the tree: a child's index at every level. Two tables of
      one parsed tree are the same object exactly when they sit in the same place. */
  type Position = seq<nat>

  datatype Place = Place(position: Position, table: Node)

  datatype SearchError = NotATable | ArmsDisagree
  datatype Result<+T> = Found(value: T) | Fails(error: SearchError)

  const FLAG := "enable_sub_lm"

  // --- the tree ---------------------------------------------------------------------------

  function Arity(node: Node): nat {
    match node
    case Table(entries) => |entries|
    case Array(items) => |items|
    case Scalar(_) => 0
  }

  function Child(node: Node, i: nat): (child: Node)
    requires i < Arity(node)
    ensures child < node
  {
    if node.Table? then assert node.entries[i] < node; node.entries[i].value else node.items[i]
  }

  function At(node: Node, position: Position): Option<Node>
    decreases |position|
  {
    if position == [] then Some(node)
    else if position[0] >= Arity(node) then None
    else At(Child(node, position[0]), position[1..])
  }

  function FindFrom(entries: seq<Entry>, key: string, i: nat): (found: Option<nat>)
    requires i <= |entries|
    ensures found.Some? ==> i <= found.value < |entries| && entries[found.value].key == key
    ensures found.Some? ==> forall j :: i <= j < found.value ==> entries[j].key != key
    ensures found.None? <==> forall j :: i <= j < |entries| ==> entries[j].key != key
    decreases |entries| - i
  {
    if i == |entries| then None
    else if entries[i].key == key then Some(i)
    else FindFrom(entries, key, i + 1)
  }

  /** The place of a key's value, if `place` holds a table that has the key. */
  function Get(place: Place, key: string): Option<Place> {
    if !place.table.Table? then None
    else
      var i := FindFrom(place.table.entries, key, 0);
      if i.None? then None else Some(Place(place.position + [i.value], place.table.entries[i.value].value))
  }

  predicate HoldsFlag(node: Node) {
    node.Table? && FindFrom(node.entries, FLAG, 0).Some?
  }

  function Truthy(node: Node): (truthy: bool)
    ensures !truthy <==> node == Table([]) || node == Array([]) || node == Scalar(false)
  {
    match node
    case Table(entries) => entries != []
    case Array(items) => items != []
    case Scalar(truthy) => truthy
  }

  function FlagOf(table: Node): bool
    requires HoldsFlag(table)
  {
    Truthy(table.entries[FindFrom(table.entries, FLAG, 0).value].value)
  }

  // --- reading the flag ---------------------------------------------------------------------

  /** `d.get(key, {})`, and then a `.get` on the result: a value that is there but
      is no table raises. */
  function Descend(place: Option<Place>, key: string): Result<Option<Place>> {
    if place.None? then Found(None)
    else if !place.value.table.Table? then Fails(NotATable)
    else Found(Get(place.value, key))
  }

  function EnvEntry(data: Node): Result<Option<Place>> {
    var orchestrator := Descend(Some(Place([], data)), "orchestrator");
    if orchestrator.Fails? then orchestrator
    else
      var train := Descend(orchestrator.value, "train");
      if train.Fails? then train else Descend(train.value, "env")
  }

  /** One table, or an array of them; anything else counts as nothing. */
  function EnvEntries(env: Option<Place>): seq<Place> {
    if env.None? then []
    else match env.value.table
         case Array(items) =>
           seq(|items|, i requires 0 <= i < |items| => Place(env.value.position + [i], items[i]))
         case Table(_) => [env.value]
         case Scalar(_) => []
  }

  function ArgTables(entries: seq<Place>): seq<Place> {
    if entries == [] then []
    else
      var args, rest := Get(entries[0], "args"), ArgTables(entries[1..]);
      if args.Some? && args.value.table.Table? then [args.value] + rest else rest
  }

  /** Every `[orchestrator.train.env.args]` table: the live ones. */
  function EnvArgTables(data: Node): Result<seq<Place>> {
    var env := EnvEntry(data);
    if env.Fails? then Fails(env.error) else Found(ArgTables(EnvEntries(env.value)))
  }

  function Flags(tables: seq<Place>): seq<bool> {
    if tables == [] then []
    else if HoldsFlag(tables[0].table) then [FlagOf(tables[0].table)] + Flags(tables[1..])
    else Flags(tables[1..])
  }

  function ReadFlag(data: Node): Result<Option<bool>> {
    var tables := EnvArgTables(data);
    if tables.Fails? then Fails(tables.error)
    else
      var flags := Flags(tables.value);
      if flags == [] then Found(None)
      else if exists i :: 0 <= i < |flags| && flags[i] != flags[0] then Fails(ArmsDisagree)
      else Found(Some(flags[0]))
  }

  // --- looking for it elsewhere ----------------------------------------------------------------

  function Walk(node: Node, position: Position, live: seq<Position>): Option<Position>
    decreases node, Arity(node) + 1
  {
    if HoldsFlag(node) && position !in live then Some(position) else WalkChildren(node, position, live, 0)
  }

  function WalkChildren(node: Node, position: Position, live: seq<Position>, i: nat): Option<Position>
    requires i <= Arity(node)
    decreases node, Arity(node) - i
  {
    if i == Arity(node) then None
    else
      var found := Walk(Child(node, i), position + [i], live);
      if found.Some? then found else WalkChildren(node, position, live, i + 1)
  }

  function Positions(tables: seq<Place>): seq<Position> {
    seq(|tables|, i requires 0 <= i < |tables| => tables[i].position)
  }

  function MisplacedFlag(data: Node): Result<Option<Position>> {
    var tables := EnvArgTables(data);
    if tables.Fails? then Fails(tables.error) else Found(Walk(data, [], Positions(tables.value)))
  }

  // --- the search misses nothing and invents nothing ------------------------------------------------

  /** A table somewhere in the tree that holds the flag. */
  ghost predicate Occurs(node: Node, q: Position) {
    At(node, q).Some? && HoldsFlag(At(node, q).value)
  }

  ghost predicate AllLive(node: Node, position: Position, live: seq<Position>) {
    forall q :: Occurs(node, q) ==> position + q in live
  }

  ghost predicate AllLiveFrom(node: Node, position: Position, live: seq<Position>, i: nat) {
    forall q :: Occurs(node, q) && q != [] && q[0] >= i ==> position + q in live
  }

  lemma OccursBelow(node: Node, q: Position)
    ensures q == [] ==> (Occurs(node, q) <==> HoldsFlag(node))
    ensures q != [] && q[0] < Arity(node) ==> (Occurs(node, q) <==> Occurs(Child(node, q[0]), q[1..]))
    ensures q != [] && q[0] >= Arity(node) ==> !Occurs(node, q)
  {
  }

  lemma OneChildMore(node: Node, position: Position, live: seq<Position>, i: nat)
    requires i < Arity(node)
    ensures AllLiveFrom(node, position, live, i) <==>
              AllLive(Child(node, i), position + [i], live) && AllLiveFrom(node, position, live, i + 1)
  {
    forall r ensures position + [i] + r == position + ([i] + r) && ([i] + r)[1..] == r {
    }
    if AllLiveFrom(node, position, live, i) {
      forall r | Occurs(Child(node, i), r) ensures position + [i] + r in live {
        OccursBelow(node, [i] + r);
        assert Occurs(node, [i] + r);
      }
    }
    if AllLive(Child(node, i), position + [i], live) && AllLiveFrom(node, position, live, i + 1) {
      forall q | Occurs(node, q) && q != [] && q[0] >= i ensures position + q in live {
        if q[0] == i {
          OccursBelow(node, q);
          assert q == [i] + q[1..];
          assert position + [i] + q[1..] in live;
        }
      }
    }
  }

  lemma RootOrBelow(node: Node, position: Position, live: seq<Position>)
    ensures AllLive(node, position, live) <==>
              (HoldsFlag(node) ==> position in live) && AllLiveFrom(node, position, live, 0)
  {
    OccursBelow(node, []);
    assert position + [] == position;
    assert Occurs(node, []) <==> HoldsFlag(node);
  }

  lemma NothingBeyond(node: Node, position: Position, live: seq<Position>)
    ensures AllLiveFrom(node, position, live, Arity(node))
  {
    forall q: Position ensures Occurs(node, q) && q != [] ==> q[0] < Arity(node) {
      OccursBelow(node, q);
    }
  }

  lemma {:induction false} WalkIsComplete(node: Node, position: Position, live: seq<Position>)
    ensures Walk(node, position, live).None? <==> AllLive(node, position, live)
    decreases node, Arity(node) + 1
  {
    RootOrBelow(node, position, live);
    hide AllLive, AllLiveFrom, HoldsFlag;
    ChildrenAreComplete(node, position, live, 0);
  }

  lemma {:induction false} ChildrenAreComplete(node: Node, position: Position, live: seq<Position>, i: nat)
    requires i <= Arity(node)
    ensures WalkChildren(node, position, live, i).None? <==> AllLiveFrom(node, position, live, i)
    decreases node, Arity(node) - i
  {
    hide AllLive, AllLiveFrom;
    if i == Arity(node) {
      NothingBeyond(node, position, live);
    } else {
      OneChildMore(node, position, live, i);
      WalkIsComplete(Child(node, i), position + [i], live);
      ChildrenAreComplete(node, position, live, i + 1);
    }
  }

  lemma {:induction false} WalkIsSound(node: Node, position: Position, live: seq<Position>)
    ensures var found := Walk(node, position, live);
            found.Some? ==> found.value !in live && exists q :: found.value == position + q && Occurs(node, q)
    decreases node, Arity(node) + 1
  {
    if HoldsFlag(node) && position !in live {
      assert position == position + [] && Occurs(node, []);
    } else {
      ChildrenAreSound(node, position, live, 0);
    }
  }

  lemma {:induction false} ChildrenAreSound(node: Node, position: Position, live: seq<Position>, i: nat)
    requires i <= Arity(node)
    ensures var found := WalkChildren(node, position, live, i);
            found.Some? ==> found.value !in live && exists q :: found.value == position + q && Occurs(node, q)
    decreases node, Arity(node) - i
  {
    if i < Arity(node) {
      WalkIsSound(Child(node, i), position + [i], live);
      ChildrenAreSound(node, position, live, i + 1);
      var found := Walk(Child(node, i), position + [i], live);
      if found.Some? {
        var r :| found.value == position + [i] + r && Occurs(Child(node, i), r);
        OccursBelow(node, [i] + r);
        assert ([i] + r)[1..] == r && found.value == position + ([i] + r);
        assert Occurs(node, [i] + r);
      }
    }
  }

  // --- live tables are where they are said to be -------------------------------------------------------

  ghost predicate Sits(data: Node, place: Place) {
    At(data, place.position) == Some(place.table)
  }

  lemma {:induction false} AtConcat(node: Node, p: Position, q: Position)
    requires At(node, p).Some?
    ensures At(node, p + q) == At(At(node, p).value, q)
    decreases |p|
  {
    if p == [] {
      assert p + q == q;
    } else {
      assert (p + q)[1..] == p[1..] + q;
      AtConcat(Child(node, p[0]), p[1..], q);
    }
  }

  lemma ChildSits(data: Node, place: Place, i: nat)
    requires Sits(data, place) && i < Arity(place.table)
    ensures Sits(data, Place(place.position + [i], Child(place.table, i)))
  {
    AtConcat(data, place.position, [i]);
    assert At(place.table, [i]) == At(Child(place.table, i), [i][1..]);
  }

  lemma GetSits(data: Node, place: Place, key: string)
    requires Sits(data, place)
    ensures Get(place, key).Some? ==> Sits(data, Get(place, key).value)
  {
    if Get(place, key).Some? {
      ChildSits(data, place, FindFrom(place.table.entries, key, 0).value);
    }
  }

  lemma EnvEntrySits(data: Node)
    ensures var env := EnvEntry(data);
            env.Found? && env.value.Some? ==> Sits(data, env.value.value)
  {
    var root := Place([], data);
    assert Sits(data, root);
    hide Get, Sits;
    GetSits(data, root, "orchestrator");
    var orchestrator := Descend(Some(root), "orchestrator");
    if orchestrator.Found? && orchestrator.value.Some? {
      GetSits(data, orchestrator.value.value, "train");
      var train := Descend(orchestrator.value, "train");
      if train.Found? && train.value.Some? {
        GetSits(data, train.value.value, "env");
      }
    }
  }

  lemma EnvEntriesSit(data: Node, env: Option<Place>)
    requires env.Some? ==> Sits(data, env.value)
    ensures forall i :: 0 <= i < |EnvEntries(env)| ==> Sits(data, EnvEntries(env)[i])
  {
    if env.Some? && env.value.table.Array? {
      forall i: nat | i < |env.value.table.items| ensures Sits(data, EnvEntries(env)[i]) {
        ChildSits(data, env.value, i);
      }
    }
  }

  lemma {:induction false} ArgTablesSit(data: Node, entries: seq<Place>)
    requires forall i :: 0 <= i < |entries| ==> Sits(data, entries[i])
    ensures forall i :: 0 <= i < |ArgTables(entries)| ==>
              Sits(data, ArgTables(entries)[i]) && ArgTables(entries)[i].table.Table?
  {
    hide Sits, Get;
    if entries != [] {
      GetSits(data, entries[0], "args");
      ArgTablesSit(data, entries[1..]);
    }
  }

  lemma LiveTablesSit(data: Node)
    requires EnvArgTables(data).Found?
    ensures forall i :: 0 <= i < |EnvArgTables(data).value| ==> Sits(data, EnvArgTables(data).value[i])
  {
    hide Sits, EnvEntries, ArgTables;
    EnvEntrySits(data);
    EnvEntriesSit(data, EnvEntry(data).value);
    ArgTablesSit(data, EnvEntries(EnvEntry(data).value));
  }

  // --- and they are those at one path ---------------------------------------------------------------

  /** Child `i` of a table is what the key leads to. */
  predicate Keyed(node: Node, key: string, i: nat) {
    && node.Table? && i < |node.entries| && node.entries[i].key == key
    && forall j :: 0 <= j < i ==> node.entries[j].key != key
  }

  /** The table at `[i]` below `node` is its `args`. */
  predicate ArgsAt(node: Node, i: nat) {
    Keyed(node, "args", i) && node.entries[i].value.Table?
  }

  /** `p` leads to `orchestrator.train.env`. */
  predicate EnvAt(data: Node, p: Position) {
    && |p| == 3 && Keyed(data, "orchestrator", p[0])
    && var orchestrator := data.entries[p[0]].value;
    && Keyed(orchestrator, "train", p[1])
    && Keyed(orchestrator.entries[p[1]].value, "env", p[2])
  }

  function EnvOf(data: Node, p: Position): Node
    requires EnvAt(data, p)
  {
    data.entries[p[0]].value.entries[p[1]].value.entries[p[2]].value
  }

  /** `p` is an `orchestrator.train.env.args` table: of the one environment, or of one
      in the array of them. */
  predicate OnPath(data: Node, p: Position) {
    && |p| > 3 && EnvAt(data, p[..3])
    && match EnvOf(data, p[..3])
       case Table(entries) => |p| == 4 && ArgsAt(Table(entries), p[3])
       case Array(items) => |p| == 5 && p[3] < |items| && ArgsAt(items[p[3]], p[4])
       case Scalar(_) => false
  }

  lemma GetIsKeyed(place: Place, key: string)
    ensures Get(place, key).Some? <==> exists i: nat :: Keyed(place.table, key, i)
    ensures forall i: nat :: Keyed(place.table, key, i) ==>
              Get(place, key) == Some(Place(place.position + [i], place.table.entries[i].value))
  {
    if Get(place, key).Some? {
      assert Keyed(place.table, key, FindFrom(place.table.entries, key, 0).value);
    }
  }

  /** What `d.get(key, {})` needs not to raise. */
  ghost predicate Gettable(node: Node, key: string) {
    forall i: nat :: Keyed(node, key, i) ==> node.entries[i].value.Table?
  }

  /** `orchestrator` and `train`, where they are there, have to be tables. */
  lemma EnvEntryFails(data: Node)
    ensures EnvEntry(data).Fails? <==>
              || !data.Table? || !Gettable(data, "orchestrator")
              || exists i: nat :: Keyed(data, "orchestrator", i) && !Gettable(data.entries[i].value, "train")
  {
    hide Get;
    GetIsKeyed(Place([], data), "orchestrator");
    if i: nat :| Keyed(data, "orchestrator", i) {
      GetIsKeyed(Place([] + [i], data.entries[i].value), "train");
    }
  }

  /** The value found is the one at `orchestrator.train.env`, and it is found. */
  lemma EnvEntryIsAt(data: Node)
    requires EnvEntry(data).Found?
    ensures var env := EnvEntry(data).value;
            && (env.Some? ==> EnvAt(data, env.value.position) && env.value.table == EnvOf(data, env.value.position))
            && (forall p :: EnvAt(data, p) ==> env.Some? && env.value.position == p)
  {
    hide Get;
    var root := Place([], data);
    GetIsKeyed(root, "orchestrator");
    if Get(root, "orchestrator").Some? {
      var orchestrator := Get(root, "orchestrator").value;
      GetIsKeyed(orchestrator, "train");
      if Get(orchestrator, "train").Some? {
        GetIsKeyed(Get(orchestrator, "train").value, "env");
      }
    }
    forall p | EnvAt(data, p) ensures EnvEntry(data).value.Some? && EnvEntry(data).value.value.position == p {
      assert p == [] + [p[0]] + [p[1]] + [p[2]];
    }
  }

  ghost predicate ArgsOf(entries: seq<Place>, p: Position) {
    exists k, i: nat :: 0 <= k < |entries| && ArgsAt(entries[k].table, i) && p == entries[k].position + [i]
  }

  lemma {:induction false} ArgTablesAre(entries: seq<Place>, p: Position)
    ensures p in Positions(ArgTables(entries)) <==> ArgsOf(entries, p)
  {
    if entries != [] {
      ArgTablesAre(entries[1..], p);
      GetIsKeyed(entries[0], "args");
      ArgsOfFirst(entries, p);
      var args, rest := Get(entries[0], "args"), ArgTables(entries[1..]);
      hide Get;
      if args.Some? && args.value.table.Table? {
        assert Positions([args.value] + rest) == [args.value.position] + Positions(rest);
      }
    }
  }

  lemma ArgsOfFirst(entries: seq<Place>, p: Position)
    requires entries != []
    ensures ArgsOf(entries, p) <==>
              || ArgsOf(entries[1..], p)
              || exists i: nat :: ArgsAt(entries[0].table, i) && p == entries[0].position + [i]
  {
    if k, i: nat :| 0 <= k < |entries[1..]| && ArgsAt(entries[1..][k].table, i) && p == entries[1..][k].position + [i] {
      assert entries[k + 1] == entries[1..][k];
    }
    if k, i: nat :| 0 <= k < |entries| && ArgsAt(entries[k].table, i) && p == entries[k].position + [i] {
      assert k > 0 ==> entries[1..][k - 1] == entries[k];
    }
  }

  /** A table is live exactly when it is an `orchestrator.train.env.args` table. */
  lemma LiveIsOnPath(data: Node, p: Position)
    requires EnvArgTables(data).Found?
    ensures Live(data, p) <==> OnPath(data, p)
  {
    var env := EnvEntry(data).value;
    EnvEntryIsAt(data);
    ArgTablesAre(EnvEntries(env), p);
    hide EnvEntry, EnvEntries, ArgTables, ArgsOf, EnvAt, EnvOf, OnPath;
    if env.Some? {
      ArgsAreOnPath(data, env.value, p);
    } else {
      NoEnvNoArgs(data, p);
    }
  }

  lemma NoEnvNoArgs(data: Node, p: Position)
    requires forall q :: !EnvAt(data, q)
    ensures !OnPath(data, p) && !ArgsOf(EnvEntries(None), p)
  {
  }

  lemma ArgsAreOnPath(data: Node, env: Place, p: Position)
    requires EnvAt(data, env.position) && env.table == EnvOf(data, env.position)
    requires forall q :: EnvAt(data, q) ==> q == env.position
    ensures ArgsOf(EnvEntries(Some(env)), p) <==> OnPath(data, p)
  {
    hide ArgsAt, EnvAt, EnvOf;
    var entries := EnvEntries(Some(env));
    assert |env.position| == 3 by { EnvIsThreeDeep(data, env.position); }
    if OnPath(data, p) {
      assert |p| == 4 ==> p == p[..3] + [p[3]] && entries[0] == env;
      assert |p| == 5 ==> p == p[..3] + [p[3]] + [p[4]] && entries[p[3]].table == env.table.items[p[3]];
    }
    if k, i: nat :| 0 <= k < |entries| && ArgsAt(entries[k].table, i) && p == entries[k].position + [i] {
      assert p[..3] == env.position;
    }
  }

  lemma EnvIsThreeDeep(data: Node, q: Position)
    requires EnvAt(data, q)
    ensures |q| == 3
  {
  }

  // --- what the two answers mean together ------------------------------------------------------------------

  ghost predicate Live(data: Node, p: Position)
    requires EnvArgTables(data).Found?
  {
    p in Positions(EnvArgTables(data).value)
  }

  /** Nothing is misplaced exactly when every table that holds the flag, anywhere in
      the tree, is a live one; and what is reported is a table that is not. */
  lemma MisplacedFlagIsExact(data: Node)
    requires EnvArgTables(data).Found?
    ensures MisplacedFlag(data).Found?
    ensures MisplacedFlag(data).value.None? <==> forall p :: Occurs(data, p) ==> Live(data, p)
    ensures MisplacedFlag(data).value.Some? ==>
              Occurs(data, MisplacedFlag(data).value.value) && !Live(data, MisplacedFlag(data).value.value)
  {
    var live := Positions(EnvArgTables(data).value);
    hide EnvArgTables, Occurs, Walk, Positions;
    WalkIsComplete(data, [], live);
    WalkIsSound(data, [], live);
    assert forall q: Position :: [] + q == q;
  }

  ghost predicate Votes(place: Place, b: bool) {
    HoldsFlag(place.table) && FlagOf(place.table) == b
  }

  ghost predicate SomeVote(tables: seq<Place>, b: bool) {
    exists i :: 0 <= i < |tables| && Votes(tables[i], b)
  }

  ghost predicate Carries(flags: seq<bool>, b: bool) {
    exists k :: 0 <= k < |flags| && flags[k] == b
  }

  lemma SomeVoteStep(tables: seq<Place>, b: bool)
    requires tables != []
    ensures SomeVote(tables, b) <==> Votes(tables[0], b) || SomeVote(tables[1..], b)
  {
    hide Votes;
    assert forall i :: 0 <= i < |tables| - 1 ==> tables[1..][i] == tables[i + 1];
    if i :| 0 <= i < |tables| && Votes(tables[i], b) {
      assert i > 0 ==> Votes(tables[1..][i - 1], b);
    }
  }

  lemma CarriesStep(x: bool, rest: seq<bool>, b: bool)
    ensures Carries([x] + rest, b) <==> x == b || Carries(rest, b)
    ensures !Carries([], b)
  {
    var all := [x] + rest;
    assert all[0] == x && forall k :: 0 <= k < |rest| ==> all[k + 1] == rest[k];
    if k :| 0 <= k < |all| && all[k] == b {
      assert k > 0 ==> rest[k - 1] == b;
    }
  }

  lemma {:induction false} FlagsAreVotes(tables: seq<Place>, b: bool)
    ensures Carries(Flags(tables), b) <==> SomeVote(tables, b)
  {
    if tables == [] {
      CarriesStep(b, [], b);
    } else {
      FlagsAreVotes(tables[1..], b);
      SomeVoteStep(tables, b);
      assert HoldsFlag(tables[0].table) ==> Flags(tables) == [FlagOf(tables[0].table)] + Flags(tables[1..]);
      if HoldsFlag(tables[0].table) {
        CarriesStep(FlagOf(tables[0].table), Flags(tables[1..]), b);
      }
      hide HoldsFlag, FlagOf, SomeVote, Carries;
    }
  }

  /** `read_flag` answers what the live tables say, whatever their order: their one
      truth value, nothing when none holds the flag, an error when they differ. */
  lemma ReadFlagIsExact(data: Node)
    requires EnvArgTables(data).Found?
    ensures var tables := EnvArgTables(data).value;
            var yes, no := SomeVote(tables, true), SomeVote(tables, false);
            ReadFlag(data) == if yes && no then Fails(ArmsDisagree)
                              else if yes then Found(Some(true))
                              else if no then Found(Some(false))
                              else Found(None)
  {
    var tables := EnvArgTables(data).value;
    FlagsAreVotes(tables, true);
    FlagsAreVotes(tables, false);
    hide EnvArgTables, Flags, SomeVote;
    FirstDecides(Flags(tables));
  }

  lemma FirstDecides(flags: seq<bool>)
    ensures flags == [] <==> !Carries(flags, true) && !Carries(flags, false)
    ensures flags != [] ==> Carries(flags, flags[0])
    ensures flags != [] ==> (Carries(flags, !flags[0]) <==> exists i :: 0 <= i < |flags| && flags[i] != flags[0])
  {
    if flags != [] {
      assert flags[0] == flags[0] && Carries(flags, flags[0]);
    }
  }

  lemma LiveTableVotes(data: Node, p: Position)
    requires EnvArgTables(data).Found? && Occurs(data, p) && Live(data, p)
    ensures SomeVote(EnvArgTables(data).value, FlagOf(At(data, p).value))
  {
    LiveTablesSit(data);
    hide EnvArgTables, HoldsFlag, FlagOf, At;
    var tables := EnvArgTables(data).value;
    var i :| 0 <= i < |tables| && tables[i].position == p;
    assert Sits(data, tables[i]);
    assert Votes(tables[i], FlagOf(At(data, p).value));
  }

  lemma VoteOccurs(data: Node, b: bool)
    requires EnvArgTables(data).Found? && SomeVote(EnvArgTables(data).value, b)
    ensures exists p :: Occurs(data, p)
  {
    LiveTablesSit(data);
    hide EnvArgTables, HoldsFlag, FlagOf, At;
    var tables := EnvArgTables(data).value;
    var i :| 0 <= i < |tables| && Votes(tables[i], b);
    assert Sits(data, tables[i]);
    assert Occurs(data, tables[i].position);
  }

  /** The two checks together certify the arm: with `b` read and nothing misplaced,
      every occurrence of the flag in the whole tree has truth value `b`, and there
      is one; with nothing read and nothing misplaced, there is none. */
  lemma ArmIsCertified(data: Node)
    requires ReadFlag(data).Found? && MisplacedFlag(data) == Found(None)
    ensures match ReadFlag(data).value
            case Some(b) =>
              && (forall p :: Occurs(data, p) ==> FlagOf(At(data, p).value) == b)
              && (exists p :: Occurs(data, p))
            case None => forall p :: !Occurs(data, p)
  {
    MisplacedFlagIsExact(data);
    ReadFlagIsExact(data);
    hide EnvArgTables, HoldsFlag, FlagOf, At, ReadFlag, MisplacedFlag, SomeVote, Live, Occurs;
    forall p | Occurs(data, p)
      ensures ReadFlag(data).value.Some? && At(data, p).Some? && HoldsFlag(At(data, p).value)
              && FlagOf(At(data, p).value) == ReadFlag(data).value.value
    {
      LiveTableVotes(data, p);
      OccursIsAt(data, p);
    }
    if ReadFlag(data).value.Some? {
      VoteOccurs(data, ReadFlag(data).value.value);
    }
  }

  lemma OccursIsAt(data: Node, p: Position)
    requires Occurs(data, p)
    ensures At(data, p).Some? && HoldsFlag(At(data, p).value)
  {
  }
}
