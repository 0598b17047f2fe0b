/** The routing table: an index by model that agrees with a scan of the channels, and one breaker per channel id that
    survives reloads. */
module Router {
  import opened Int64
  import opened Ordering
  import opened CircuitBreaker

  predicate Supports(c: Channel, model: string) { c.enabled && model in c.models }

  /** What a scan of all channels finds for a model, in order. */
  function Scan(channels: seq<Channel>, model: string): seq<Channel> {
    if channels == [] then []
    else
      var last := channels[|channels| - 1];
      Scan(channels[..|channels| - 1], model) + if Supports(last, model) then [last] else []
  }

  function Lookup(index: map<string, seq<Channel>>, model: string): seq<Channel> {
    if model in index then index[model] else []
  }

  /** A list is exactly the enabled channels that serve the model, in order: the place of each is the number of those before. */
  ghost predicate Serving(channels: seq<Channel>, model: string, list: seq<Channel>, before: seq<nat>) {
    && |before| == |channels| + 1 && before[0] == 0 && before[|channels|] == |list|
    && forall k {:trigger channels[k]} | 0 <= k < |channels| ::
      if channels[k].enabled && model in channels[k].models
      then before[k + 1] == before[k] + 1 && before[k] < |list| && list[before[k]] == channels[k]
      else before[k + 1] == before[k]
  }

  ghost predicate IsServing(channels: seq<Channel>, model: string, list: seq<Channel>) {
    exists before :: Serving(channels, model, list, before)
  }

  lemma ServingSnoc(channels: seq<Channel>, model: string, list: seq<Channel>, before: seq<nat>, c: Channel)
    requires Serving(channels, model, list, before)
    ensures Supports(c, model) ==> Serving(channels + [c], model, list + [c], before + [|list| + 1])
    ensures !Supports(c, model) ==> Serving(channels + [c], model, list, before + [|list|])
  {
    var all := channels + [c];
    assert all[|channels|] == c && forall k | 0 <= k < |channels| :: all[k] == channels[k];
  }

  lemma IsServingSnoc(channels: seq<Channel>, model: string, list: seq<Channel>, c: Channel)
    requires IsServing(channels, model, list)
    ensures IsServing(channels + [c], model, if Supports(c, model) then list + [c] else list)
  {
    var before :| Serving(channels, model, list, before);
    ServingSnoc(channels, model, list, before, c);
  }

  lemma ScanSnoc(channels: seq<Channel>, model: string, c: Channel)
    ensures Scan(channels + [c], model) == if Supports(c, model) then Scan(channels, model) + [c] else Scan(channels, model)
  {
    assert (channels + [c])[..|channels|] == channels && Scan(channels, model) + [] == Scan(channels, model);
  }

  lemma NothingServes(model: string)
    ensures IsServing([], model, [])
  {
    assert Serving([], model, [], [0]);
  }

  lemma {:induction false} ScanServes(channels: seq<Channel>, model: string)
    ensures IsServing(channels, model, Scan(channels, model))
    decreases |channels|
  {
    if channels == [] {
      NothingServes(model);
    } else {
      var front, last := channels[..|channels| - 1], channels[|channels| - 1];
      ScanServes(front, model);
      IsServingSnoc(front, model, Scan(front, model), last);
      ScanSnoc(front, model, last);
      assert channels == front + [last];
    }
  }

  ghost predicate IndexAgrees(index: map<string, seq<Channel>>, channels: seq<Channel>) {
    forall model :: Lookup(index, model) == Scan(channels, model)
  }

  /** The index while one channel's models are being added. */
  ghost predicate Adding(index: map<string, seq<Channel>>, channels: seq<Channel>, c: Channel, todo: set<string>) {
    forall model :: Lookup(index, model)
                 == Scan(channels, model) + if c.enabled && model in c.models && model !in todo then [c] else []
  }

  lemma AddedAll(index: map<string, seq<Channel>>, channels: seq<Channel>, c: Channel)
    requires Adding(index, channels, c, {})
    ensures IndexAgrees(index, channels + [c])
  {
    assert (channels + [c])[..|channels|] == channels;
    forall model ensures Lookup(index, model) == Scan(channels + [c], model) {
      assert Lookup(index, model) == Scan(channels, model) + if c.enabled && model in c.models && model !in {} then [c] else [];
    }
  }

  lemma AddOne(index: map<string, seq<Channel>>, channels: seq<Channel>, c: Channel, todo: set<string>, model: string)
    requires Adding(index, channels, c, todo) && c.enabled && model in c.models && model in todo
    ensures Adding(index[model := Lookup(index, model) + [c]], channels, c, todo - {model})
  {
    var after := index[model := Lookup(index, model) + [c]];
    forall m ensures Lookup(after, m) == Scan(channels, m) + if c.enabled && m in c.models && m !in todo - {model} then [c] else [] {
      assert Lookup(index, m) == Scan(channels, m) + if c.enabled && m in c.models && m !in todo then [c] else [];
    }
  }

  lemma NothingAdded(index: map<string, seq<Channel>>, channels: seq<Channel>, c: Channel)
    requires IndexAgrees(index, channels)
    ensures Adding(index, channels, c, c.models.Keys)
    ensures !c.enabled ==> Adding(index, channels, c, {})
  {
    forall m ensures Lookup(index, m) == Scan(channels, m) + [] {
      assert Lookup(index, m) == Scan(channels, m);
    }
  }

  method BuildIndex(channels: seq<Channel>) returns (index: map<string, seq<Channel>>)
    ensures IndexAgrees(index, channels)
    ensures forall model :: IsServing(channels, model, Lookup(index, model))
  {
    index := map[];
    for i := 0 to |channels|
      invariant IndexAgrees(index, channels[..i])
    {
      var c := channels[i];
      NothingAdded(index, channels[..i], c);
      if c.enabled {
        var todo := c.models.Keys;
        while todo != {}
          invariant todo <= c.models.Keys && Adding(index, channels[..i], c, todo)
          decreases todo
        {
          var model :| model in todo;
          AddOne(index, channels[..i], c, todo, model);
          index := index[model := Lookup(index, model) + [c]];
          todo := todo - {model};
        }
      }
      AddedAll(index, channels[..i], c);
      assert channels[..i + 1] == channels[..i] + [c];
    }
    assert channels[..|channels|] == channels;
    forall model ensures IsServing(channels, model, Lookup(index, model)) {
      ScanServes(channels, model);
      assert Lookup(index, model) == Scan(channels, model);
    }
  }

  predicate Lists(channels: seq<Channel>, id: string) { exists c :: c in channels && c.id == id }

  lemma ListsSnoc(channels: seq<Channel>, c: Channel)
    ensures forall id :: Lists(channels + [c], id) <==> Lists(channels, id) || c.id == id
  {
    forall id ensures Lists(channels + [c], id) <==> Lists(channels, id) || c.id == id {
      if Lists(channels, id) {
        var d :| d in channels && d.id == id;
        assert d in channels + [c];
      }
      if c.id == id { assert c in channels + [c]; }
    }
  }

  datatype Candidate = Candidate(channel: Channel, breaker: Breaker)

  function ChannelsOf(cs: seq<Candidate>): seq<Channel> {
    if cs == [] then [] else ChannelsOf(cs[..|cs| - 1]) + [cs[|cs| - 1].channel]
  }

  /** The channels whose id is in a set, in order. */
  function Keep(channels: seq<Channel>, ids: set<string>): seq<Channel> {
    if channels == [] then []
    else
      var last := channels[|channels| - 1];
      Keep(channels[..|channels| - 1], ids) + if last.id in ids then [last] else []
  }

  lemma KeepSnoc(channels: seq<Channel>, ids: set<string>, c: Channel)
    ensures Keep(channels + [c], ids) == if c.id in ids then Keep(channels, ids) + [c] else Keep(channels, ids)
  {
    assert (channels + [c])[..|channels|] == channels;
  }

  lemma ChannelsSnoc(cs: seq<Candidate>, c: Candidate)
    ensures ChannelsOf(cs + [c]) == ChannelsOf(cs) + [c.channel]
  {
    assert (cs + [c])[..|cs|] == cs;
  }

  /** Every old entry is kept, and only the given ids are new. */
  ghost predicate Grown(before: map<string, Breaker>, after: map<string, Breaker>, ids: set<string>) {
    && (forall id | id in before :: id in after && after[id] == before[id])
    && (forall id | id in after :: id in before || id in ids)
  }

  /** Every candidate carries the breaker that the table has for its channel. */
  ghost predicate Paired(cs: seq<Candidate>, table: map<string, Breaker>) {
    forall i | 0 <= i < |cs| :: cs[i].channel.id in table && cs[i].breaker == table[cs[i].channel.id]
  }

  /** What the filtering loop knows after the channels seen. */
  ghost predicate Kept(seen: seq<Channel>, ready: set<string>, cs: seq<Candidate>, before: map<string, Breaker>,
                       after: map<string, Breaker>, ids: set<string>) {
    ChannelsOf(cs) == Keep(seen, ready) && Paired(cs, after) && Grown(before, after, ids)
  }

  lemma GrownPut(before: map<string, Breaker>, table: map<string, Breaker>, ids: set<string>, id: string, b: Breaker)
    requires Grown(before, table, ids) && id in ids && (id in table ==> b == table[id])
    ensures Grown(before, table[id := b], ids)
  {
  }

  lemma PairedSnoc(cs: seq<Candidate>, table: map<string, Breaker>, c: Candidate)
    requires Paired(cs, table) && (c.channel.id in table ==> c.breaker == table[c.channel.id])
    ensures Paired(cs, table[c.channel.id := c.breaker]) && Paired(cs + [c], table[c.channel.id := c.breaker])
  {
  }

  lemma KeptSnoc(seen: seq<Channel>, ready: set<string>, cs: seq<Candidate>, before: map<string, Breaker>,
                 table: map<string, Breaker>, ids: set<string>, c: Channel, b: Breaker)
    requires Kept(seen, ready, cs, before, table, ids) && c.id in ids && (c.id in table ==> b == table[c.id])
    ensures Kept(seen + [c], ready, if c.id in ready then cs + [Candidate(c, b)] else cs, before, table[c.id := b], ids)
  {
    var next := Candidate(c, b);
    GrownPut(before, table, ids, c.id, b);
    PairedSnoc(cs, table, next);
    assert ChannelsOf(if c.id in ready then cs + [next] else cs) == Keep(seen + [c], ready) by {
      KeepSnoc(seen, ready, c);
      ChannelsSnoc(cs, next);
    }
  }

  lemma {:induction false} KeepCounts(channels: seq<Channel>, ids: set<string>, x: Channel)
    ensures multiset(Keep(channels, ids))[x] == if x.id in ids then multiset(channels)[x] else 0
  {
    if channels != [] {
      var n := |channels| - 1;
      KeepCounts(channels[..n], ids, x);
      assert channels == channels[..n] + [channels[n]];
    }
  }

  lemma KeepPermutes(a: seq<Channel>, b: seq<Channel>, ids: set<string>)
    requires multiset(a) == multiset(b)
    ensures multiset(Keep(a, ids)) == multiset(Keep(b, ids))
  {
    forall x: Channel ensures multiset(Keep(a, ids))[x] == multiset(Keep(b, ids))[x] {
      KeepCounts(a, ids, x);
      KeepCounts(b, ids, x);
    }
  }

  lemma {:induction false} KeepBounds(channels: seq<Channel>, ids: set<string>, p: int)
    requires forall i | 0 <= i < |channels| :: channels[i].priority >= p
    ensures forall i | 0 <= i < |Keep(channels, ids)| :: Keep(channels, ids)[i].priority >= p
  {
    if channels != [] { KeepBounds(channels[..|channels| - 1], ids, p); }
  }

  lemma {:induction false} KeepKeepsOrder(channels: seq<Channel>, ids: set<string>)
    requires PriorityOrder(channels)
    ensures PriorityOrder(Keep(channels, ids))
  {
    if channels != [] {
      var n := |channels| - 1;
      KeepKeepsOrder(channels[..n], ids);
      KeepBounds(channels[..n], ids, channels[n].priority);
    }
  }

  /** Filtering a reordering of the supporting channels filters the supporting channels, and keeps the order. */
  lemma FilteredOrder(ordered: seq<Channel>, matched: seq<Channel>, ids: set<string>)
    requires multiset(ordered) == multiset(matched) && PriorityOrder(ordered)
    ensures multiset(Keep(ordered, ids)) == multiset(Keep(matched, ids)) && PriorityOrder(Keep(ordered, ids))
    ensures Keep(ordered, ids) == [] <==> Keep(matched, ids) == []
  {
    KeepPermutes(ordered, matched, ids);
    KeepKeepsOrder(ordered, ids);
    assert |Keep(ordered, ids)| == |multiset(Keep(ordered, ids))| == |multiset(Keep(matched, ids))| == |Keep(matched, ids)|;
  }

  lemma SameElements(a: seq<Channel>, b: seq<Channel>)
    requires multiset(a) == multiset(b)
    ensures forall c :: c in a <==> c in b
  {
    forall c ensures c in a <==> c in b {
      assert c in a <==> multiset(a)[c] > 0;
      assert c in b <==> multiset(b)[c] > 0;
    }
  }

  /** A channel is kept out only by a breaker that would refuse it right now. */
  ghost predicate Admits(states: map<string, (Config, State)>, id: string, now: int) {
    id in states ==> Ready(states[id].0, states[id].1, now)
  }

  ghost function ReadyIds(states: map<string, (Config, State)>, channels: seq<Channel>, now: int): set<string> {
    set c | c in channels && Admits(states, c.id, now) :: c.id
  }

  lemma ReadyById(states: map<string, (Config, State)>, channels: seq<Channel>, now: int, c: Channel)
    requires c in channels
    ensures c.id in ReadyIds(states, channels, now) <==> Admits(states, c.id, now)
  {
  }

  // ---- reloads and selections racing with each other ----

  /** What happens atomically: the two halves of a reload, the two halves of a selection (the second filters the list
      that an earlier command loaded), and a request that uses a breaker of the table. */
  datatype Command =
    | PublishSnapshot(channels: seq<Channel>)
    | SyncTable(channels: seq<Channel>)
    | Load(model: string)
    | Filter(loaded: nat, now: int)
    | Use(id: string, now: int, verdict: Verdict)

  /** The snapshot that is visible after some commands. */
  function Published(channels: seq<Channel>, commands: seq<Command>): seq<Channel> {
    if commands == [] then channels
    else
      var last := commands[|commands| - 1];
      if last.PublishSnapshot? then last.channels else Published(channels, commands[..|commands| - 1])
  }

  /** Every reload keeps the channel. */
  ghost predicate Survives(commands: seq<Command>, id: string) {
    forall i | 0 <= i < |commands| && commands[i].SyncTable? :: Lists(commands[i].channels, id)
  }

  lemma SurvivesSnoc(commands: seq<Command>, command: Command)
    ensures forall id ::
      Survives(commands + [command], id) <==> Survives(commands, id) && (command.SyncTable? ==> Lists(command.channels, id))
  {
    var all := commands + [command];
    forall id ensures Survives(all, id) <==> Survives(commands, id) && (command.SyncTable? ==> Lists(command.channels, id)) {
      if Survives(all, id) {
        assert all[|commands|] == command;
        assert forall i | 0 <= i < |commands| :: commands[i] == all[i];
      }
    }
  }

  lemma PublishedSnoc(channels: seq<Channel>, commands: seq<Command>, command: Command)
    ensures Published(channels, commands + [command])
         == if command.PublishSnapshot? then command.channels else Published(channels, commands)
  {
    assert (commands + [command])[..|commands|] == commands;
  }

  /** The breaker of a channel that every reload kept is still the same object; any other is none of the first ones. */
  ghost predicate RightBreaker(was: map<string, Breaker>, past: seq<Command>, id: string, b: Breaker) {
    if id in was && Survives(past, id) then b == was[id] else b !in was.Values
  }

  ghost predicate RightTable(was: map<string, Breaker>, past: seq<Command>, table: map<string, Breaker>) {
    && (forall id | id in was && Survives(past, id) :: id in table)
    && (forall id | id in table :: RightBreaker(was, past, id, table[id]))
  }

  lemma SyncKeepsRight(was: map<string, Breaker>, past: seq<Command>, table: map<string, Breaker>,
                       channels: seq<Channel>, next: map<string, Breaker>)
    requires RightTable(was, past, table) && forall id :: id in next <==> Lists(channels, id)
    requires forall id | id in next :: if id in table then next[id] == table[id] else next[id] !in was.Values
    ensures RightTable(was, past + [SyncTable(channels)], next)
  {
    SurvivesSnoc(past, SyncTable(channels));
    forall id | id in next ensures RightBreaker(was, past + [SyncTable(channels)], id, next[id]) {
      if id in table { assert RightBreaker(was, past, id, table[id]); }
    }
  }

  lemma GrowthKeepsRight(was: map<string, Breaker>, past: seq<Command>, table: map<string, Breaker>,
                         command: Command, next: map<string, Breaker>)
    requires RightTable(was, past, table) && !command.SyncTable? && forall id | id in table :: id in next && next[id] == table[id]
    requires forall id | id in next && id !in table :: next[id] !in was.Values
    ensures RightTable(was, past + [command], next)
  {
    SurvivesSnoc(past, command);
    forall id | id in next ensures RightBreaker(was, past + [command], id, next[id]) {
      if id in table { assert RightBreaker(was, past, id, table[id]); }
    }
  }

  /** A loaded list is the supporting channels of the snapshot that was visible then, by priority, weighted inside each. */
  ghost predicate RightList(snapshot: seq<Channel>, model: string, list: seq<Channel>, rng: Source) {
    IsOrder(Scan(snapshot, model), list, rng)
  }

  /** The candidates are the loaded channels that are ready, in the loaded order, each with its right breaker. */
  ghost predicate RightAnswer(was: map<string, Breaker>, past: seq<Command>, list: seq<Channel>, ready: set<string>,
                              answer: seq<Candidate>) {
    && ChannelsOf(answer) == Keep(list, ready)
    && forall i | 0 <= i < |answer| :: RightBreaker(was, past, answer[i].channel.id, answer[i].breaker)
  }

  /** What a command gives after the lists and commands before it: a list, candidates, or nothing. */
  ghost predicate Gives(was: map<string, Breaker>, past: seq<Command>, snapshot: seq<Channel>, lists: seq<seq<Channel>>,
                        states: map<string, (Config, State)>, rng: Source, command: Command, list: seq<Channel>, answer: seq<Candidate>) {
    match command
    case Load(model) => RightList(snapshot, model, list, rng) && answer == []
    case Filter(loaded, now) =>
      list == [] && if loaded < |lists|
                    then RightAnswer(was, past + [command], lists[loaded], ReadyIds(states, lists[loaded], now), answer)
                    else answer == []
    case _ => list == [] && answer == []
  }

  /** What each command of a history gave, at the snapshot visible and the breaker states of its moment. */
  ghost predicate History(was: map<string, Breaker>, channels: seq<Channel>, commands: seq<Command>,
                          moments: seq<map<string, (Config, State)>>, rng: Source, lists: seq<seq<Channel>>,
                          answers: seq<seq<Candidate>>) {
    && |moments| == |lists| == |answers| == |commands|
    && forall k | 0 <= k < |commands| ::
      Gives(was, commands[..k], Published(channels, commands[..k]), lists[..k], moments[k], rng, commands[k], lists[k], answers[k])
  }

  lemma HistorySnoc(was: map<string, Breaker>, channels: seq<Channel>, commands: seq<Command>,
                    moments: seq<map<string, (Config, State)>>, rng: Source, lists: seq<seq<Channel>>, answers: seq<seq<Candidate>>,
                    command: Command, states: map<string, (Config, State)>, list: seq<Channel>, answer: seq<Candidate>)
    requires History(was, channels, commands, moments, rng, lists, answers)
    requires Gives(was, commands, Published(channels, commands), lists, states, rng, command, list, answer)
    ensures History(was, channels, commands + [command], moments + [states], rng, lists + [list], answers + [answer])
  {
    var n, cs, ms, ls, xs := |commands|, commands + [command], moments + [states], lists + [list], answers + [answer];
    forall k | 0 <= k <= n ensures Gives(was, cs[..k], Published(channels, cs[..k]), ls[..k], ms[k], rng, cs[k], ls[k], xs[k]) {
      if k == n {
        assert cs[..k] == commands && ls[..k] == lists;
      } else {
        assert cs[..k] == commands[..k] && ls[..k] == lists[..k];
        assert cs[k] == commands[k] && ms[k] == moments[k] && ls[k] == lists[k] && xs[k] == answers[k];
      }
    }
  }

  lemma HistoryNext(was: map<string, Breaker>, channels: seq<Channel>, commands: seq<Command>, i: nat,
                    moments: seq<map<string, (Config, State)>>, rng: Source, lists: seq<seq<Channel>>, answers: seq<seq<Candidate>>,
                    states: map<string, (Config, State)>, list: seq<Channel>, answer: seq<Candidate>)
    requires i < |commands| && History(was, channels, commands[..i], moments, rng, lists, answers)
    requires Gives(was, commands[..i], Published(channels, commands[..i]), lists, states, rng, commands[i], list, answer)
    ensures History(was, channels, commands[..i + 1], moments + [states], rng, lists + [list], answers + [answer])
  {
    assert commands[..i + 1] == commands[..i] + [commands[i]];
    HistorySnoc(was, channels, commands[..i], moments, rng, lists, answers, commands[i], states, list, answer);
  }

  lemma {:induction false} ChannelAt(cs: seq<Candidate>, i: nat)
    requires i < |cs|
    ensures |ChannelsOf(cs)| == |cs| && ChannelsOf(cs)[i] == cs[i].channel
    decreases |cs|
  {
    if |cs| > 1 { ChannelAt(cs[..|cs| - 1], if i < |cs| - 1 then i else 0); }
  }

  /** A selection offers only channels of the snapshot that was visible when it loaded its list. */
  lemma OffersAreListed(snapshot: seq<Channel>, model: string, list: seq<Channel>, rng: Source,
                        ready: set<string>, answer: seq<Candidate>)
    requires RightList(snapshot, model, list, rng) && ChannelsOf(answer) == Keep(list, ready)
    ensures PriorityOrder(ChannelsOf(answer))
    ensures forall i | 0 <= i < |answer| ::
      answer[i].channel in snapshot && answer[i].channel.enabled && model in answer[i].channel.models
  {
    KeepKeepsOrder(list, ready);
    KeepFinds(list, ready);
    SameElements(list, Scan(snapshot, model));
    ScanFinds(snapshot, model);
    forall i | 0 <= i < |answer| ensures answer[i].channel in snapshot && Supports(answer[i].channel, model) {
      ChannelAt(answer, i);
      assert ChannelsOf(answer)[i] in list;
    }
  }

  lemma {:induction false} ScanFinds(channels: seq<Channel>, model: string)
    ensures forall c :: c in Scan(channels, model) <==> c in channels && Supports(c, model)
  {
    if channels != [] {
      var n := |channels| - 1;
      ScanFinds(channels[..n], model);
      assert channels == channels[..n] + [channels[n]];
    }
  }

  lemma {:induction false} KeepFinds(channels: seq<Channel>, ids: set<string>)
    ensures forall c | c in Keep(channels, ids) :: c in channels
  {
    if channels != [] { KeepFinds(channels[..|channels| - 1], ids); }
  }

  class Router {
    const cfg: Config
    var channels: seq<Channel>
    var byModel: map<string, seq<Channel>>
    var breakers: map<string, Breaker>

    /** The index is the scan of the current channels. */
    ghost predicate Valid()
      reads this
    {
      IndexAgrees(byModel, channels)
    }

    /** A breaker that has seen nothing yet, with the router's settings. */
    ghost predicate IsNew(b: Breaker)
      reads b
    {
      b.cfg == Normalized(cfg) && b.View() == NEW_STATE
    }

    /** The state of every breaker in the table. */
    ghost function States(): map<string, (Config, State)>
      reads this, breakers.Values
    {
      map id | id in breakers :: (breakers[id].cfg, breakers[id].View())
    }

    /** The table still holds the breakers of a snapshot, unchanged, and otherwise only new ones. */
    ghost predicate Holds(states: map<string, (Config, State)>)
      reads this, breakers.Values
    {
      && states.Keys <= breakers.Keys
      && forall id | id in breakers ::
        if id in states then (breakers[id].cfg, breakers[id].View()) == states[id] else IsNew(breakers[id])
    }

    constructor (channels: seq<Channel>, cfg: Config)
      ensures Valid() && this.channels == channels && this.cfg == cfg
    {
      this.cfg := cfg;
      this.channels, this.byModel, this.breakers := [], map[], map[];
      new;
      UpdateChannels(channels);
    }

    /** Replaces the snapshot; a breaker whose channel id stays keeps its state, one whose id goes is dropped. */
    method UpdateChannels(channels: seq<Channel>)
      modifies this
      ensures Valid() && this.channels == channels
      ensures forall id :: id in breakers <==> Lists(channels, id)
      ensures forall id | id in breakers && id in old(breakers) :: breakers[id] == old(breakers[id])
      ensures forall id | id in breakers && id !in old(breakers) :: IsNew(breakers[id]) && fresh(breakers[id])
    {
      Publish(channels);
      Sync(channels);
    }

    /** The first half of a reload: the new snapshot becomes visible. */
    method Publish(channels: seq<Channel>)
      modifies this`channels, this`byModel
      ensures Valid() && this.channels == channels
    {
      var index := BuildIndex(channels);
      this.channels, this.byModel := channels, index;
    }

    /** The second half, under the lock: the breaker table follows. */
    method Sync(channels: seq<Channel>)
      modifies this`breakers
      ensures forall id :: id in breakers <==> Lists(channels, id)
      ensures forall id | id in breakers && id in old(breakers) :: breakers[id] == old(breakers[id])
      ensures forall id | id in breakers && id !in old(breakers) :: IsNew(breakers[id]) && fresh(breakers[id])
    {
      var next: map<string, Breaker> := map[];
      for i := 0 to |channels|
        invariant forall id :: id in next <==> Lists(channels[..i], id)
        invariant forall id | id in next && id in old(breakers) :: next[id] == old(breakers[id])
        invariant forall id | id in next && id !in old(breakers) :: IsNew(next[id]) && fresh(next[id])
        invariant this.breakers == old(breakers)
      {
        var c := channels[i];
        assert channels[..i + 1] == channels[..i] + [c];
        ListsSnoc(channels[..i], c);
        if c.id in breakers {
          next := next[c.id := breakers[c.id]];
        } else {
          var b := new Breaker(cfg);
          next := next[c.id := b];
        }
      }
      assert channels[..|channels|] == channels;
      breakers := next;
    }

    /** The breaker of a channel, a new one if the table has none, and whether it would admit a request now. */
    method Check(id: string, now: int, ghost states: map<string, (Config, State)>) returns (b: Breaker, admits: bool)
      requires Holds(states)
      modifies this`breakers
      ensures Holds(states) && breakers == old(breakers)[id := b]
      ensures id in old(breakers) ==> b == old(breakers)[id]
      ensures id !in old(breakers) ==> fresh(b)
      ensures admits == Admits(states, id, now)
    {
      if id !in breakers {
        var fallback := new Breaker(cfg);
        breakers := breakers[id := fallback];
      }
      b := breakers[id];
      admits := b.IsReady(now);
    }

    /** Drops the channels whose breaker is not ready; only channels without a breaker add to the table. */
    method KeepReady(ordered: seq<Channel>, now: int, ghost states: map<string, (Config, State)>)
      returns (candidates: seq<Candidate>)
      requires Holds(states)
      modifies this`breakers
      ensures Holds(states) && Grown(old(breakers), breakers, IdsOf(ordered))
      ensures forall id | id in breakers && id !in old(breakers) :: fresh(breakers[id])
      ensures ChannelsOf(candidates) == Keep(ordered, ReadyIds(states, ordered, now)) && Paired(candidates, breakers)
    {
      candidates := [];
      ghost var table, ready := breakers, ReadyIds(states, ordered, now);
      for i := 0 to |ordered|
        invariant Holds(states)
        invariant Kept(ordered[..i], ready, candidates, table, breakers, IdsOf(ordered))
        invariant forall id | id in breakers && id !in table :: fresh(breakers[id])
      {
        var c := ordered[i];
        assert c in ordered && ordered[..i + 1] == ordered[..i] + [c];
        ReadyById(states, ordered, now, c);
        ghost var previous := breakers;
        var b, admits := Check(c.id, now, states);
        KeptSnoc(ordered[..i], ready, candidates, table, previous, IdsOf(ordered), c, b);
        if admits { candidates := candidates + [Candidate(c, b)]; }
      }
      assert ordered[..|ordered|] == ordered;
    }

    /** The ready channels of some weighted order of those matched, each with its breaker; nothing iff none is ready. */
    ghost predicate IsSelection(r: Option<seq<Candidate>>, matched: seq<Channel>, ready: set<string>, rng: Source)
      reads this
    {
      match r
      case None => Keep(matched, ready) == []
      case Some(cs) =>
        && cs != [] && Paired(cs, breakers)
        && multiset(ChannelsOf(cs)) == multiset(Keep(matched, ready)) && PriorityOrder(ChannelsOf(cs))
        && exists ordered :: IsOrder(matched, ordered, rng) && ChannelsOf(cs) == Keep(ordered, ready)
    }

    /** Exactly the supporting channels whose breaker is ready, or an error iff there are none; the breaker table only
        grows, and only by supporting channels that had no breaker. */
    method Select(model: string, now: int, rng: Source) returns (r: Option<seq<Candidate>>)
      requires Valid() && Fair(rng)
      modifies this`breakers
      ensures Valid() && Holds(old(States()))
      ensures IsSelection(r, Scan(channels, model), ReadyIds(old(States()), Scan(channels, model), now), rng)
      ensures Grown(old(breakers), breakers, IdsOf(Scan(channels, model)))
    {
      var matched := if model in byModel then byModel[model] else [];
      assert matched == Lookup(byModel, model) == Scan(channels, model);
      if |matched| == 0 { return None; }
      ghost var states := States();
      var ordered := Order(matched, states, now, rng);
      var candidates := KeepReady(ordered, now, states);
      if |candidates| == 0 {
        assert ChannelsOf(candidates) == [];
        return None;
      }
      assert ChannelsOf(candidates) != [];
      return Some(candidates);
    }

    /** The second half of a selection, on a list that may be older than the snapshot. */
    method FilterList(list: seq<Channel>, now: int, ghost was: map<string, Breaker>, ghost past: seq<Command>, ghost command: Command)
      returns (answer: seq<Candidate>)
      requires RightTable(was, past, breakers) && command.Filter?
      modifies this`breakers
      ensures RightTable(was, past + [command], breakers)
      ensures RightAnswer(was, past + [command], list, ReadyIds(old(States()), list, now), answer)
      ensures forall id | id in breakers :: breakers[id] in old(breakers.Values) || fresh(breakers[id])
    {
      ghost var states, table := States(), breakers;
      answer := KeepReady(list, now, states);
      GrowthKeepsRight(was, past, table, command, breakers);
    }

    /** A request on a breaker of the table, if it has one for the channel. */
    method UseBreaker(id: string, now: int, verdict: Verdict)
      modifies breakers.Values
    {
      if id in breakers {
        var permit := breakers[id].Admit(now);
        if permit != null { permit.Resolve(verdict, now); }
      }
    }

    method Turn(command: Command, lists: seq<seq<Channel>>, rng: Source, ghost was: map<string, Breaker>, ghost past: seq<Command>)
      returns (list: seq<Channel>, answer: seq<Candidate>)
      requires Valid() && RightTable(was, past, breakers) && Fair(rng)
      modifies this, breakers.Values
      ensures Valid() && channels == if command.PublishSnapshot? then command.channels else old(channels)
      ensures RightTable(was, past + [command], breakers)
      ensures Gives(was, past, old(channels), lists, old(States()), rng, command, list, answer)
      ensures forall id | id in breakers :: breakers[id] in old(breakers.Values) || fresh(breakers[id])
    {
      list, answer := [], [];
      ghost var table := breakers;
      match command {
        case PublishSnapshot(next) =>
          Publish(next);
          GrowthKeepsRight(was, past, table, command, breakers);
        case SyncTable(next) =>
          Sync(next);
          SyncKeepsRight(was, past, table, next, breakers);
        case Load(model) =>
          list := LoadList(model, rng);
          GrowthKeepsRight(was, past, table, command, breakers);
        case Filter(loaded, now) =>
          if loaded < |lists| {
            answer := FilterList(lists[loaded], now, was, past, command);
          } else {
            GrowthKeepsRight(was, past, table, command, breakers);
          }
        case Use(id, now, verdict) =>
          UseBreaker(id, now, verdict);
          GrowthKeepsRight(was, past, table, command, breakers);
      }
    }

    /** The next of some commands, and what the history becomes with it. */
    method TakeTurn(commands: seq<Command>, i: nat, lists: seq<seq<Channel>>, rng: Source, ghost was: map<string, Breaker>,
                    ghost first: seq<Channel>, ghost answers: seq<seq<Candidate>>, ghost moments: seq<map<string, (Config, State)>>)
      returns (list: seq<Channel>, answer: seq<Candidate>)
      requires Valid() && Fair(rng) && i < |commands|
      requires channels == Published(first, commands[..i]) && RightTable(was, commands[..i], breakers)
      requires History(was, first, commands[..i], moments, rng, lists, answers)
      modifies this, breakers.Values
      ensures Valid() && channels == Published(first, commands[..i + 1]) && RightTable(was, commands[..i + 1], breakers)
      ensures History(was, first, commands[..i + 1], moments + [old(States())], rng, lists + [list], answers + [answer])
      ensures forall id | id in breakers :: breakers[id] in old(breakers.Values) || fresh(breakers[id])
    {
      PublishedSnoc(first, commands[..i], commands[i]);
      assert commands[..i + 1] == commands[..i] + [commands[i]];
      ghost var states := States();
      list, answer := Turn(commands[i], lists, rng, was, commands[..i]);
      HistoryNext(was, first, commands, i, moments, rng, lists, answers, states, list, answer);
    }

    /** However reloads, selections and requests interleave: every list is what a scan of the visible snapshot finds, every
        selection keeps the ready channels of its list, and a channel that every reload keeps is always offered with the
        breaker it had at the beginning, any other with a new one. */
    method Serve(commands: seq<Command>, rng: Source)
      returns (lists: seq<seq<Channel>>, answers: seq<seq<Candidate>>, ghost moments: seq<map<string, (Config, State)>>)
      requires Valid() && Fair(rng)
      modifies this, breakers.Values
      ensures Valid() && channels == Published(old(channels), commands) && RightTable(old(breakers), commands, breakers)
      ensures History(old(breakers), old(channels), commands, moments, rng, lists, answers)
    {
      ghost var was, first := breakers, channels;
      lists, answers, moments := [], [], [];
      for i := 0 to |commands|
        invariant Valid() && channels == Published(first, commands[..i]) && RightTable(was, commands[..i], breakers)
        invariant History(was, first, commands[..i], moments, rng, lists, answers)
        invariant forall id | id in breakers :: breakers[id] in was.Values || fresh(breakers[id])
      {
        ghost var states := States();
        var list, answer := TakeTurn(commands, i, lists, rng, was, first, answers, moments);
        lists, answers, moments := lists + [list], answers + [answer], moments + [states];
      }
      assert commands[..|commands|] == commands;
    }

    /** The first half of a selection. */
    method LoadList(model: string, rng: Source) returns (list: seq<Channel>)
      requires Valid() && Fair(rng)
      ensures RightList(channels, model, list, rng)
    {
      var matched := if model in byModel then byModel[model] else [];
      assert matched == Lookup(byModel, model) == Scan(channels, model);
      list := OrderCandidates(matched, rng);
    }

    /** The candidate order, with what filtering it by readiness will give. */
    static method Order(matched: seq<Channel>, ghost states: map<string, (Config, State)>, ghost now: int, rng: Source)
      returns (ordered: seq<Channel>)
      requires Fair(rng)
      ensures IdsOf(ordered) == IdsOf(matched) && IsOrder(matched, ordered, rng)
      ensures ReadyIds(states, ordered, now) == ReadyIds(states, matched, now)
      ensures var kept, found := Keep(ordered, ReadyIds(states, ordered, now)), Keep(matched, ReadyIds(states, matched, now));
        multiset(kept) == multiset(found) && PriorityOrder(kept) && (kept == [] <==> found == [])
    {
      ordered := OrderCandidates(matched, rng);
      SameElements(ordered, matched);
      assert ReadyIds(states, ordered, now) == ReadyIds(states, matched, now);
      FilteredOrder(ordered, matched, ReadyIds(states, matched, now));
    }
  }

  ghost function IdsOf(channels: seq<Channel>): set<string> { set c | c in channels :: c.id }
}
