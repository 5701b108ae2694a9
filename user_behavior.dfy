/** The user analytics tab (components/user_behavior.py): journeys through
    the funnel counted as consecutive behavior pairs, user segments built by
    set difference, purchase rates by how many products a user viewed, and
    the insight list gated on user-level rates. */
module UserBehavior {
  import opened Events
  import opened Seqs
  import opened Grouping
  import opened Ranking
  import opened Rates

  // ---------------------------------------------------------------------
  // Users with more than one behavior type
  // ---------------------------------------------------------------------

  /** The distinct BehaviorType values of one user's rows. */
  function BehaviorsOf(t: Table, u: int): set<Behavior>
  {
    set e | e in t && e.user == u :: e.behavior
  }

  /** `groupby("UserID")["BehaviorType"].nunique() > 1`. */
  predicate MultiBehavior(t: Table, u: int)
  {
    |BehaviorsOf(t, u)| > 1
  }

  /** A user has more than one behavior type exactly when two of the user's
      rows carry different behaviors. */
  lemma MultiBehaviorMeans(t: Table, u: int)
    ensures MultiBehavior(t, u) <==>
      exists i, j :: 0 <= i < |t| && 0 <= j < |t| && t[i].user == u && t[j].user == u && t[i].behavior != t[j].behavior
  {
    if MultiBehavior(t, u) {
      var i, j := MultiBehaviorWitness(t, u);
    }
    if exists i, j :: 0 <= i < |t| && 0 <= j < |t| && t[i].user == u && t[j].user == u && t[i].behavior != t[j].behavior {
      var i, j :| 0 <= i < |t| && 0 <= j < |t| && t[i].user == u && t[j].user == u && t[i].behavior != t[j].behavior;
      TwoBehaviors(t, u, i, j);
    }
  }

  lemma MultiBehaviorWitness(t: Table, u: int) returns (i: nat, j: nat)
    requires MultiBehavior(t, u)
    ensures i < |t| && j < |t| && t[i].user == u && t[j].user == u && t[i].behavior != t[j].behavior
  {
    var s := BehaviorsOf(t, u);
    var x :| x in s;
    assert |s - {x}| > 0;
    var y :| y in s - {x};
    var e :| e in t && e.user == u && e.behavior == x;
    var f :| f in t && f.user == u && f.behavior == y;
    i :| 0 <= i < |t| && t[i] == e;
    j :| 0 <= j < |t| && t[j] == f;
  }

  lemma TwoBehaviors(t: Table, u: int, i: nat, j: nat)
    requires i < |t| && j < |t| && t[i].user == u && t[j].user == u && t[i].behavior != t[j].behavior
    ensures MultiBehavior(t, u)
  {
    var s := BehaviorsOf(t, u);
    assert t[i] in t && t[j] in t;
    var pair := {t[i].behavior, t[j].behavior};
    assert pair <= s;
    assert s == pair + (s - pair);
    assert |pair| == 2;
  }

  /** The user filter `user_behavior_counts > 1`. */
  function MultiOf(t: Table): int -> bool
  {
    (u: int) => MultiBehavior(t, u)
  }

  /** `users_with_multiple_behaviors`: the index of the per-user nunique
      series, ascending as groupby sorts it, filtered to counts above one. */
  function MultiBehaviorUsers(t: Table): (r: seq<int>)
    ensures Increasing(r)
    ensures forall u :: u in r <==> u in Map(t, UserOf) && MultiBehavior(t, u)
  {
    var users := SortedDistinct(Map(t, UserOf));
    FilterIncreasing(users, MultiOf(t));
    FilterMembers(users, MultiOf(t));
    Filter(users, MultiOf(t))
  }

  // ---------------------------------------------------------------------
  // Journey pairs
  // ---------------------------------------------------------------------

  type Pair = (Behavior, Behavior)

  /** The score under which a descending sort is a chronological one. */
  function NegTime(e: Event): real { -(e.timestamp as real) }

  /** One user's rows of the table. */
  function UserRows(t: Table, u: int): Table
  {
    Filter(t, OfUser(u))
  }

  /** `df["UserID"] == user_id` as a row predicate. */
  function OfUser(u: int): Event -> bool
  {
    (e: Event) => e.user == u
  }

  /** Every row of a user is among the user's rows. */
  lemma UserRowsMember(t: Table, u: int, i: nat)
    requires i < |t| && t[i].user == u
    ensures t[i] in UserRows(t, u)
  {
    FilterCount(t, OfUser(u), t[i]);
  }

  /** Rows sorted by Timestamp, oldest first. */
  function Chronological(rows: Table): (r: Table)
    ensures |r| == |rows|
    ensures multiset(r) == multiset(rows)
  {
    SortDesc(rows, NegTime)
  }

  /** The chronological order never goes back in time. */
  lemma ChronologicalIsOrdered(rows: Table, i: nat, j: nat)
    requires i <= j < |rows|
    ensures Chronological(rows)[i].timestamp <= Chronological(rows)[j].timestamp
  {
    NonIncreasingPairwise(Chronological(rows), NegTime, i, j);
  }

  /** `journey_df[journey_df["UserID"] == user_id]["BehaviorType"].tolist()`:
      the user's behaviors in time order. */
  function UserSequence(t: Table, u: int): (s: seq<Behavior>)
    ensures |s| == |UserRows(t, u)|
  {
    Map(Chronological(UserRows(t, u)), BehaviorOf)
  }

  /** The consecutive pairs of a sequence. */
  function Pairs(s: seq<Behavior>): (r: seq<Pair>)
    ensures |s| <= 1 ==> r == []
    ensures |s| > 1 ==> |r| == |s| - 1
    ensures forall i :: 0 <= i < |r| ==> r[i] == (s[i], s[i + 1])
  {
    if |s| <= 1 then []
    else Pairs(s[..|s| - 1]) + [(s[|s| - 2], s[|s| - 1])]
  }

  /** At most the first three steps of a journey. */
  function FirstSteps(s: seq<Behavior>): (r: seq<Behavior>)
    ensures |r| == Min(3, |s|)
    ensures forall i :: 0 <= i < |r| ==> r[i] == s[i]
  {
    s[..Min(3, |s|)]
  }

  /** The pairs one user contributes: consecutive pairs of the first three steps. */
  function UserPairs(s: seq<Behavior>): (r: seq<Pair>)
    ensures |r| <= 2
    ensures |r| == if |s| < 2 then 0 else Min(3, |s|) - 1
    ensures forall i :: 0 <= i < |r| ==> r[i] == (s[i], s[i + 1])
  {
    Pairs(FirstSteps(s))
  }

  /** `journey_pairs` after the loop has visited the users `us`, in order. */
  function JourneyPairs(t: Table, us: seq<int>): (r: seq<Pair>)
    ensures |r| <= 2 * |us|
  {
    if us == [] then []
    else JourneyPairs(t, us[..|us| - 1]) + UserPairs(UserSequence(t, us[|us| - 1]))
  }

  /** The loop at lines 149-159: for each user, append the consecutive pairs
      of the user's first three time-ordered behaviors. */
  method BuildJourneyPairs(t: Table, users: seq<int>) returns (pairs: seq<Pair>)
    ensures pairs == JourneyPairs(t, users)
    ensures |pairs| <= 2 * |users|
  {
    pairs := [];
    for k := 0 to |users|
      invariant pairs == JourneyPairs(t, users[..k])
    {
      var sequence := UserSequence(t, users[k]);
      var steps := sequence[..Min(3, |sequence|)];
      if |steps| > 1 {
        pairs := AppendPairs(pairs, steps);
      }
      TakeOneMore(users, k);
    }
    assert users[..|users|] == users;
  }

  /** The inner loop at lines 158-159: appends each consecutive pair of `steps`. */
  method AppendPairs(pairs: seq<Pair>, steps: seq<Behavior>) returns (r: seq<Pair>)
    requires |steps| > 1
    ensures r == pairs + Pairs(steps)
  {
    r := pairs;
    for i := 0 to |steps| - 1
      invariant r == pairs + Pairs(steps[..i + 1])
    {
      TakeOneMore(steps, i + 1);
      r := r + [(steps[i], steps[i + 1])];
    }
    assert steps[..|steps|] == steps;
  }

  /** `pair_counts` after the loop has visited `seen`. */
  function CountsOf(seen: seq<Pair>): map<Pair, nat>
  {
    if seen == [] then map[]
    else
      var counts := CountsOf(seen[..|seen| - 1]);
      var p := seen[|seen| - 1];
      counts[p := (if p in counts then counts[p] else 0) + 1]
  }

  /** The counting dictionary maps each pair that occurs to its number of
      occurrences, and holds no other key. */
  lemma {:induction false} CountsOfMeaning(seen: seq<Pair>)
    ensures forall p :: p in CountsOf(seen) <==> p in seen
    ensures forall p :: p in CountsOf(seen) ==> CountsOf(seen)[p] == multiset(seen)[p]
  {
    if seen != [] {
      var init := seen[..|seen| - 1];
      CountsOfMeaning(init);
      assert seen == init + [seen[|seen| - 1]];
      assert multiset(seen) == multiset(init) + multiset{seen[|seen| - 1]};
    }
  }

  /** A pair is a key of the counting dictionary exactly when it was seen. */
  lemma {:induction false} CountsOfHas(seen: seq<Pair>, p: Pair)
    ensures p in CountsOf(seen) <==> p in seen
  {
    if seen != [] {
      var init := seen[..|seen| - 1];
      CountsOfHas(init, p);
      assert seen == init + [seen[|seen| - 1]];
    }
  }

  lemma CountsOfSnoc(pairs: seq<Pair>, k: nat)
    requires k < |pairs|
    ensures var counts, p := CountsOf(pairs[..k]), pairs[k];
      CountsOf(pairs[..k + 1]) == counts[p := (if p in counts then counts[p] else 0) + 1]
  {
    TakeOneMore(pairs, k);
  }

  /** The dictionary update loop at lines 165-168: `pair_counts` holds, for
      every pair that occurs, how often it occurs; `order` is its key order,
      which is first insertion. */
  method CountPairs(pairs: seq<Pair>) returns (counts: map<Pair, nat>, order: seq<Pair>)
    ensures order == Distinct(pairs)
    ensures forall p :: p in counts <==> p in pairs
    ensures forall p :: p in counts ==> counts[p] == multiset(pairs)[p]
  {
    counts := map[];
    order := [];
    for k := 0 to |pairs|
      invariant counts == CountsOf(pairs[..k])
      invariant order == Distinct(pairs[..k])
    {
      var p := pairs[k];
      CountsOfSnoc(pairs, k);
      CountsOfHas(pairs[..k], p);
      DistinctHas(pairs[..k], p);
      DistinctTakeOneMore(pairs, k);
      var known := p in counts;
      var n := if known then counts[p] else 0;
      if !known {
        order := order + [p];
      }
      counts := counts[p := n + 1];
    }
    assert pairs[..|pairs|] == pairs;
    CountsOfMeaning(pairs);
  }

  /** The dictionary's items in key order. */
  function Items(order: seq<Pair>, counts: map<Pair, nat>): (r: seq<(Pair, nat)>)
    requires forall p :: p in order ==> p in counts
    ensures |r| == |order|
    ensures forall i :: 0 <= i < |order| ==> r[i] == (order[i], counts[order[i]])
  {
    if order == [] then []
    else Items(order[..|order| - 1], counts) + [(order[|order| - 1], counts[order[|order| - 1]])]
  }

  /** `pair_counts.items()` is the group count of the pairs in first-appearance
      order, and the counts add up to the number of pairs. */
  lemma PairCountItems(pairs: seq<Pair>, counts: map<Pair, nat>)
    requires forall p :: p in counts <==> p in pairs
    requires forall p :: p in counts ==> counts[p] == multiset(pairs)[p]
    ensures Items(Distinct(pairs), counts) == GroupCounts(pairs)
    ensures SumCounts(Items(Distinct(pairs), counts)) == |pairs|
  {
    var d := Distinct(pairs);
    assert forall i :: 0 <= i < |d| ==> d[i] in pairs;
    assert GroupCounts(pairs) == CountsFor(d, pairs);
  }

  // ---------------------------------------------------------------------
  // Sankey links
  // ---------------------------------------------------------------------

  /** `node_indices`: pv, cart, fav, buy numbered 0 to 3. */
  function NodeIndex(b: Behavior): (i: nat)
    requires IsStandard(b)
    ensures i < 4 && FunnelOrder[i] == b
  {
    match b
    case Pv => 0
    case Cart => 1
    case Fav => 2
    case Buy => 3
  }

  predicate StandardPair(p: Pair) { IsStandard(p.0) && IsStandard(p.1) }

  datatype Link = Link(source: nat, target: nat, value: nat)

  function LinkFor(item: (Pair, nat)): Link
    requires StandardPair(item.0)
  {
    Link(NodeIndex(item.0.0), NodeIndex(item.0.1), item.1)
  }

  /** The loop at lines 187-191 as a value: one link per item whose two
      behaviors both have a node, in item order. */
  function LinksOf(items: seq<(Pair, nat)>): (r: seq<Link>)
    ensures |r| <= |items|
  {
    if items == [] then []
    else
      var last := items[|items| - 1];
      var rest := LinksOf(items[..|items| - 1]);
      if StandardPair(last.0) then rest + [LinkFor(last)] else rest
  }

  /** The links are exactly those of the items whose two behaviors are standard. */
  lemma {:induction false} LinksOfMembers(items: seq<(Pair, nat)>, l: Link)
    ensures l in LinksOf(items) <==>
      exists i :: 0 <= i < |items| && StandardPair(items[i].0) && l == LinkFor(items[i])
  {
    if items != [] {
      var init := items[..|items| - 1];
      LinksOfMembers(init, l);
      assert forall i :: 0 <= i < |init| ==> init[i] == items[i];
    }
  }

  /** A link is drawn exactly for a pair of standard behaviors that occurs,
      and its width is the number of times the pair occurs. */
  lemma LinkMeaning(pairs: seq<Pair>, l: Link)
    ensures l in LinksOf(GroupCounts(pairs)) <==>
      exists p :: p in pairs && StandardPair(p) && l == Link(NodeIndex(p.0), NodeIndex(p.1), multiset(pairs)[p])
  {
    var g := GroupCounts(pairs);
    LinksOfMembers(g, l);
    if l in LinksOf(g) {
      var i :| 0 <= i < |g| && StandardPair(g[i].0) && l == LinkFor(g[i]);
      assert g[i].0 in pairs;
    }
    if exists p :: p in pairs && StandardPair(p) && l == Link(NodeIndex(p.0), NodeIndex(p.1), multiset(pairs)[p]) {
      var p :| p in pairs && StandardPair(p) && l == Link(NodeIndex(p.0), NodeIndex(p.1), multiset(pairs)[p]);
      var b := GroupRowOf(pairs, p);
      assert l == LinkFor(g[b]);
    }
  }

  /** The links after one more dictionary item. */
  lemma ItemsSnoc(order: seq<Pair>, k: nat, counts: map<Pair, nat>)
    requires k < |order| && forall p :: p in order ==> p in counts
    ensures LinksOf(Items(order[..k + 1], counts)) ==
      LinksOf(Items(order[..k], counts)) + (if StandardPair(order[k]) then [LinkFor((order[k], counts[order[k]]))] else [])
  {
    TakeOneMore(order, k);
    var items := Items(order[..k + 1], counts);
    assert items[..k] == Items(order[..k], counts);
  }

  /** The link list split into the three parallel lists the figure takes. */
  function SourceOf(l: Link): nat { l.source }
  function TargetOf(l: Link): nat { l.target }
  function ValueOf(l: Link): nat { l.value }

  /** The loop at lines 187-191: walks the dictionary in key order and
      appends to `sources`, `targets` and `values` when both endpoints have
      a node. */
  method BuildLinks(order: seq<Pair>, counts: map<Pair, nat>)
      returns (sources: seq<nat>, targets: seq<nat>, values: seq<nat>)
    requires forall p :: p in order ==> p in counts
    ensures sources == Map(LinksOf(Items(order, counts)), SourceOf)
    ensures targets == Map(LinksOf(Items(order, counts)), TargetOf)
    ensures values == Map(LinksOf(Items(order, counts)), ValueOf)
  {
    sources, targets, values := [], [], [];
    ghost var links: seq<Link> := [];
    for k := 0 to |order|
      invariant links == LinksOf(Items(order[..k], counts))
      invariant sources == Map(links, SourceOf)
      invariant targets == Map(links, TargetOf)
      invariant values == Map(links, ValueOf)
    {
      var pair := order[k];
      var count := counts[pair];
      TakeOneMore(order, k);
      ItemsSnoc(order, k, counts);
      if IsStandard(pair.0) && IsStandard(pair.1) {
        var link := Link(NodeIndex(pair.0), NodeIndex(pair.1), count);
        MapAppend(links, [link], SourceOf);
        MapAppend(links, [link], TargetOf);
        MapAppend(links, [link], ValueOf);
        links := links + [link];
        sources := sources + [NodeIndex(pair.0)];
        targets := targets + [NodeIndex(pair.1)];
        values := values + [count];
      }
    }
    assert order[..|order|] == order;
  }

  // ---------------------------------------------------------------------
  // The journey figure
  // ---------------------------------------------------------------------

  /** `node_labels`: the display names of the four nodes. */
  const NodeLabels: seq<string> := ["Page View", "Add to Cart", "Favorite", "Purchase"]

  datatype Sankey = Sankey(labels: seq<string>, sources: seq<nat>, targets: seq<nat>, values: seq<nat>)

  /** The links the journey chart is built from. */
  function JourneyLinks(t: Table): seq<Link>
  {
    LinksOf(GroupCounts(JourneyPairs(t, MultiBehaviorUsers(t))))
  }

  /** What the function evidently means to return: no chart with fewer than
      ten users having two behavior types or without any link, and otherwise
      the chart drawn from the journey links. */
  function Journey(t: Table): (r: Option<Sankey>)
    ensures r.None? <==> |MultiBehaviorUsers(t)| < 10 || JourneyLinks(t) == []
    ensures r.Some? ==>
      && r.value.labels == NodeLabels
      && r.value.sources == Map(JourneyLinks(t), SourceOf)
      && r.value.targets == Map(JourneyLinks(t), TargetOf)
      && r.value.values == Map(JourneyLinks(t), ValueOf)
  {
    var links := JourneyLinks(t);
    if |MultiBehaviorUsers(t)| < 10 || links == [] then None
    else Some(Sankey(NodeLabels, Map(links, SourceOf), Map(links, TargetOf), Map(links, ValueOf)))
  }

  /** `create_user_journey_sankey` as written: it computes the links and the
      figure, but its `return fig` is commented out, so every path that does
      not return None early falls off the end and returns None. */
  method CreateUserJourneySankey(t: Table) returns (fig: Option<Sankey>)
    ensures fig == None
  {
    var users := MultiBehaviorUsers(t);
    if |users| < 10 {
      return None;
    }
    var pairs := BuildJourneyPairs(t, users);
    if pairs == [] {
      return None;
    }
    var counts, order := CountPairs(pairs);
    var sources, targets, values := BuildLinks(order, counts);
    if sources == [] || targets == [] || values == [] {
      return None;
    }
    var built := Sankey(NodeLabels, sources, targets, values);
    fig := None;
  }

  /** The same computation with the figure returned. */
  method UserJourney(t: Table) returns (fig: Option<Sankey>)
    ensures fig == Journey(t)
  {
    var users := MultiBehaviorUsers(t);
    if |users| < 10 {
      return None;
    }
    var pairs := BuildJourneyPairs(t, users);
    if pairs == [] {
      assert GroupCounts(pairs) == [];
      return None;
    }
    var counts, order := CountPairs(pairs);
    var sources, targets, values := BuildLinks(order, counts);
    PairCountItems(pairs, counts);
    ghost var links := JourneyLinks(t);
    assert links == LinksOf(Items(order, counts));
    assert |sources| == |links| && |targets| == |links| && |values| == |links|;
    if sources == [] || targets == [] || values == [] {
      return None;
    }
    fig := Some(Sankey(NodeLabels, sources, targets, values));
  }

  /** A user with two behavior types has at least two rows. */
  lemma {:induction false} MultiBehaviorRows(t: Table, u: int)
    requires MultiBehavior(t, u)
    ensures |UserRows(t, u)| >= 2
  {
    MultiBehaviorMeans(t, u);
    var i, j :| 0 <= i < |t| && 0 <= j < |t| && t[i].user == u && t[j].user == u && t[i].behavior != t[j].behavior;
    UserRowsMember(t, u, i);
    UserRowsMember(t, u, j);
    TwoMembers(UserRows(t, u), t[i], t[j]);
  }

  lemma TwoMembers<T>(s: seq<T>, x: T, y: T)
    requires x in s && y in s && x != y
    ensures |s| >= 2
  {
  }

  /** A user whose journey yields a pair makes the journey list non-empty. */
  lemma {:induction false} JourneyPairsHasUser(t: Table, us: seq<int>, u: int)
    requires u in us && UserPairs(UserSequence(t, u)) != []
    ensures JourneyPairs(t, us) != []
  {
    var last := us[|us| - 1];
    if u != last {
      assert u in us[..|us| - 1];
      JourneyPairsHasUser(t, us[..|us| - 1], u);
    }
  }

  /** With at least ten users having two behavior types, and only the four
      known behaviors in the table, the intended chart always exists; the
      function as written returns None for every such table. */
  lemma JourneyChartExists(t: Table)
    requires |MultiBehaviorUsers(t)| >= 10
    requires forall e :: e in t ==> IsStandard(e.behavior)
    ensures Journey(t).Some?
  {
    var users := MultiBehaviorUsers(t);
    JourneyPairsExist(t, users, users[0]);
    JourneyPairsStandard(t, users);
    LinksExist(JourneyPairs(t, users));
  }

  /** A user with two behavior types contributes at least one pair. */
  lemma JourneyPairsExist(t: Table, us: seq<int>, u: int)
    requires u in us && MultiBehavior(t, u)
    ensures JourneyPairs(t, us) != []
  {
    MultiBehaviorRows(t, u);
    assert |UserPairs(UserSequence(t, u))| >= 1;
    JourneyPairsHasUser(t, us, u);
  }

  /** Pairs of standard behaviors always yield a link. */
  lemma LinksExist(pairs: seq<Pair>)
    requires pairs != [] && forall p :: p in pairs ==> StandardPair(p)
    ensures LinksOf(GroupCounts(pairs)) != []
  {
    var g := GroupCounts(pairs);
    assert pairs[0] in KeysOf(g);
    var b :| 0 <= b < |g| && g[b].0 == pairs[0];
    LinksOfMembers(g, LinkFor(g[b]));
  }

  /** A user's journey holds only behaviors of the table's rows. */
  lemma UserSequenceStandard(t: Table, u: int)
    requires forall e :: e in t ==> IsStandard(e.behavior)
    ensures forall b :: b in UserSequence(t, u) ==> IsStandard(b)
  {
    var rows := Chronological(UserRows(t, u));
    forall e | e in rows ensures IsStandard(e.behavior) {
      assert e in multiset(UserRows(t, u));
    }
    var s := UserSequence(t, u);
    assert forall i :: 0 <= i < |s| ==> s[i] == rows[i].behavior;
  }

  /** Journey pairs hold only behaviors that occur in the table. */
  lemma {:induction false} JourneyPairsStandard(t: Table, us: seq<int>)
    requires forall e :: e in t ==> IsStandard(e.behavior)
    ensures forall p :: p in JourneyPairs(t, us) ==> StandardPair(p)
  {
    if us != [] {
      JourneyPairsStandard(t, us[..|us| - 1]);
      var s := UserSequence(t, us[|us| - 1]);
      UserSequenceStandard(t, us[|us| - 1]);
      var prev, r := JourneyPairs(t, us[..|us| - 1]), UserPairs(s);
      assert JourneyPairs(t, us) == prev + r;
      forall p | p in prev + r ensures StandardPair(p) {
        if p !in prev {
          var i :| 0 <= i < |r| && r[i] == p;
          assert s[i] in s && s[i + 1] in s;
        }
      }
    }
  }

  // ---------------------------------------------------------------------
  // User segments
  // ---------------------------------------------------------------------

  /** `set(df[df["BehaviorType"] == b]["UserID"].unique())`. */
  function UsersWith(t: Table, b: Behavior): set<int>
  {
    set e | e in t && e.behavior == b :: e.user
  }

  /** A user is in UsersWith exactly when one of the user's rows has that behavior. */
  lemma UsersWithMeans(t: Table, b: Behavior, u: int)
    ensures u in UsersWith(t, b) <==> exists i :: 0 <= i < |t| && t[i].user == u && t[i].behavior == b
  {
    if u in UsersWith(t, b) {
      var e :| e in t && e.behavior == b && e.user == u;
      var i :| 0 <= i < |t| && t[i] == e;
    }
    if exists i :: 0 <= i < |t| && t[i].user == u && t[i].behavior == b {
      var i :| 0 <= i < |t| && t[i].user == u && t[i].behavior == b;
      assert t[i] in t;
    }
  }

  datatype Segments = Segments(browsers: set<int>, cartAbandoners: set<int>, wishlisters: set<int>, purchasers: set<int>)

  /** The four segments: viewers who did nothing else, carters who did not
      buy, favoriters who did not buy, and buyers. */
  function SegmentsOf(t: Table): Segments
  {
    var pv, cart, fav, buy := UsersWith(t, Pv), UsersWith(t, Cart), UsersWith(t, Fav), UsersWith(t, Buy);
    Segments(pv - cart - fav - buy, cart - buy, fav - buy, buy)
  }

  /** Users with any of the four known behaviors. */
  function ActiveUsers(t: Table): set<int>
  {
    UsersWith(t, Pv) + UsersWith(t, Cart) + UsersWith(t, Fav) + UsersWith(t, Buy)
  }

  /** No purchaser is in any other segment, browsers are in no other
      segment, the segments together cover every user with a known behavior,
      and the only overlap is the carters who also favorited without buying. */
  lemma SegmentFacts(t: Table)
    ensures var g := SegmentsOf(t);
      && g.purchasers !! g.browsers
      && g.purchasers !! g.cartAbandoners
      && g.purchasers !! g.wishlisters
      && g.browsers !! g.cartAbandoners
      && g.browsers !! g.wishlisters
      && g.browsers + g.cartAbandoners + g.wishlisters + g.purchasers == ActiveUsers(t)
      && g.cartAbandoners * g.wishlisters == (UsersWith(t, Cart) * UsersWith(t, Fav)) - UsersWith(t, Buy)
  {
  }

  /** The segment sizes add up to the active users plus the overlap, so a
      user who carted and favorited without buying is counted twice. */
  lemma OverlapCountedTwice(t: Table)
    ensures var g := SegmentsOf(t);
      |g.browsers| + |g.cartAbandoners| + |g.wishlisters| + |g.purchasers|
        == |ActiveUsers(t)| + |g.cartAbandoners * g.wishlisters|
  {
    var g := SegmentsOf(t);
    SegmentFacts(t);
    CardinalityWithOneOverlap(g.browsers, g.cartAbandoners, g.wishlisters, g.purchasers);
  }

  /** Four sets that overlap only in the second and third: their sizes add
      up to the size of their union plus that overlap. */
  lemma CardinalityWithOneOverlap(b: set<int>, c: set<int>, w: set<int>, p: set<int>)
    requires b !! c && b !! w && p !! b && p !! c && p !! w
    ensures |b| + |c| + |w| + |p| == |b + c + w + p| + |c * w|
  {
    var cw := c + w;
    assert |cw| + |c * w| == |c| + |w|;
    assert b !! cw;
    assert |b + cw| == |b| + |cw|;
    assert p !! (b + cw);
    assert |b + cw + p| == |b + cw| + |p|;
    assert b + cw + p == b + c + w + p;
  }

  /** One slice of the segment chart. */
  datatype SegmentShare = SegmentShare(segment: string, users: nat, percentage: real)

  function SegmentTotal(g: Segments): nat
  {
    |g.browsers| + |g.cartAbandoners| + |g.wishlisters| + |g.purchasers|
  }

  /** One slice: the segment's size and its percentage of the total. */
  function Share(segment: string, users: nat, total: nat): SegmentShare
  {
    SegmentShare(segment, users, GuardedRate(users, total))
  }

  /** `create_user_segments_chart`: no chart when the segment sizes add up
      to fewer than ten; otherwise the four segments in order with their sizes. */
  function SegmentChart(t: Table): (r: Option<seq<SegmentShare>>)
    ensures var g := SegmentsOf(t);
      && (r.None? <==> SegmentTotal(g) < 10)
      && (r.Some? ==>
        && |r.value| == 4
        && r.value[0].segment == "Browsers" && r.value[0].users == |g.browsers|
        && r.value[1].segment == "Cart Abandoners" && r.value[1].users == |g.cartAbandoners|
        && r.value[2].segment == "Wishlisters" && r.value[2].users == |g.wishlisters|
        && r.value[3].segment == "Purchasers" && r.value[3].users == |g.purchasers|)
  {
    var g := SegmentsOf(t);
    var total := SegmentTotal(g);
    if total < 10 then None
    else
      Some([Share("Browsers", |g.browsers|, total), Share("Cart Abandoners", |g.cartAbandoners|, total),
            Share("Wishlisters", |g.wishlisters|, total), Share("Purchasers", |g.purchasers|, total)])
  }

  /** Each slice's percentage is its size over the sum of the four sizes,
      which is at least ten. */
  lemma SegmentPercentages(t: Table, i: nat)
    requires SegmentChart(t).Some? && i < 4
    ensures SegmentTotal(SegmentsOf(t)) >= 10
    ensures SegmentChart(t).value[i].percentage == GuardedRate(SegmentChart(t).value[i].users, SegmentTotal(SegmentsOf(t)))
  {
  }

  /** The slice percentages of a drawn chart add up to 100. */
  lemma SharesSumTo100(t: Table)
    requires SegmentChart(t).Some?
    ensures var r := SegmentChart(t).value;
      r[0].percentage + r[1].percentage + r[2].percentage + r[3].percentage == 100.0
  {
    var r := SegmentChart(t).value;
    var total := SegmentTotal(SegmentsOf(t));
    SegmentPercentages(t, 0);
    SegmentPercentages(t, 1);
    SegmentPercentages(t, 2);
    SegmentPercentages(t, 3);
    GuardedRatesOfWhole(r[0].users, r[1].users, r[2].users, r[3].users);
  }

  // ---------------------------------------------------------------------
  // Products viewed against purchase rate
  // ---------------------------------------------------------------------

  predicate IsView(e: Event) { e.behavior == Pv }

  /** The users with a pv row, ascending: the index of
      `df[df["BehaviorType"] == "pv"].groupby("UserID")`. */
  function Viewers(t: Table): (r: seq<int>)
    ensures Increasing(r)
  {
    SortedDistinct(Map(Filter(t, IsView), UserOf))
  }

  /** The viewers are exactly the users with a pv row. */
  lemma ViewersAreViewingUsers(t: Table, u: int)
    ensures u in Viewers(t) <==> u in UsersWith(t, Pv)
  {
    var views := Filter(t, IsView);
    if u in UsersWith(t, Pv) {
      var e :| e in t && e.behavior == Pv && e.user == u;
      FilterCount(t, IsView, e);
      MapMember(views, UserOf, e);
    }
    if u in Viewers(t) {
      var i :| 0 <= i < |views| && Map(views, UserOf)[i] == u;
      assert views[i] in views;
    }
  }

  /** The distinct items a user viewed (`["ItemID"].nunique()` per user). */
  function ViewedItems(t: Table, u: int): set<int>
  {
    set e | e in t && e.user == u && e.behavior == Pv :: e.item
  }

  /** One row of `user_product_views`. */
  datatype ViewerRow = ViewerRow(user: int, productsViewed: nat, purchased: bool)

  function ViewerRowOf(t: Table, u: int): ViewerRow
  {
    ViewerRow(u, |ViewedItems(t, u)|, u in UsersWith(t, Buy))
  }

  /** `user_product_views` with its Purchased column: one row per viewer. */
  function ViewerRows(t: Table): (r: seq<ViewerRow>)
    ensures |r| == |Viewers(t)|
    ensures forall i :: 0 <= i < |r| ==> r[i] == ViewerRowOf(t, Viewers(t)[i])
  {
    var vs := Viewers(t);
    seq(|vs|, i requires 0 <= i < |vs| => ViewerRowOf(t, vs[i]))
  }

  /** Every viewer viewed at least one product, and is flagged as a
      purchaser exactly when one of the viewer's rows is a buy. */
  lemma ViewerRowFacts(t: Table, i: nat)
    requires i < |ViewerRows(t)|
    ensures ViewerRows(t)[i].productsViewed >= 1
    ensures ViewerRows(t)[i].purchased <==>
      exists j :: 0 <= j < |t| && t[j].user == ViewerRows(t)[i].user && t[j].behavior == Buy
  {
    var u := Viewers(t)[i];
    ViewersAreViewingUsers(t, u);
    var e :| e in t && e.behavior == Pv && e.user == u;
    assert e.item in ViewedItems(t, u);
    UsersWithMeans(t, Buy, u);
  }

  /** The five `pd.cut` categories, in plotting order. */
  datatype ViewBin = OneProduct | TwoProducts | ThreeToFive | SixToTen | ElevenPlus

  const BinOrder: seq<ViewBin> := [OneProduct, TwoProducts, ThreeToFive, SixToTen, ElevenPlus]

  /** The finite bin edges `[0, 1, 2, 5, 10]`; the last bin has no upper edge. */
  const BinEdges: seq<int> := [0, 1, 2, 5, 10]

  function BinLabel(b: ViewBin): string
  {
    match b
    case OneProduct => "1 product"
    case TwoProducts => "2 products"
    case ThreeToFive => "3-5 products"
    case SixToTen => "6-10 products"
    case ElevenPlus => "11+ products"
  }

  function BinIndex(b: ViewBin): (k: nat)
    ensures k < 5 && BinOrder[k] == b
  {
    match b
    case OneProduct => 0
    case TwoProducts => 1
    case ThreeToFive => 2
    case SixToTen => 3
    case ElevenPlus => 4
  }

  /** Membership of the right-closed interval `(edge k, edge k+1]`. */
  predicate InBin(n: int, b: ViewBin)
  {
    var k := BinIndex(b);
    BinEdges[k] < n && (k == 4 || n <= BinEdges[k + 1])
  }

  /** `pd.cut(n, bins=[0, 1, 2, 5, 10, inf], right=True)`: a count of zero
      or less falls in no bin; every positive count falls in exactly one. */
  function BinOf(n: int): (r: Option<ViewBin>)
    ensures r.None? <==> n <= 0
    ensures forall b :: InBin(n, b) <==> r == Some(b)
  {
    if n <= 0 then None
    else if n <= 1 then Some(OneProduct)
    else if n <= 2 then Some(TwoProducts)
    else if n <= 5 then Some(ThreeToFive)
    else if n <= 10 then Some(SixToTen)
    else Some(ElevenPlus)
  }

  /** The viewers that fall in bin `b`. */
  function CountIn(rows: seq<ViewerRow>, b: ViewBin): nat
  {
    if rows == [] then 0
    else (if BinOf(rows[0].productsViewed) == Some(b) then 1 else 0) + CountIn(rows[1..], b)
  }

  /** The purchasers among the viewers in bin `b`. */
  function BuyersIn(rows: seq<ViewerRow>, b: ViewBin): (n: nat)
    ensures n <= CountIn(rows, b)
  {
    if rows == [] then 0
    else (if BinOf(rows[0].productsViewed) == Some(b) && rows[0].purchased then 1 else 0) + BuyersIn(rows[1..], b)
  }

  /** One bar: the bin, its number of users and its purchase rate. An empty
      bin is still listed, with a rate of NaN (the mean of nothing). */
  datatype BinStat = BinStat(bin: ViewBin, userCount: nat, purchaseRate: Pct)

  function BinStatOf(rows: seq<ViewerRow>, b: ViewBin): BinStat
  {
    BinStat(b, CountIn(rows, b), Percent(BuyersIn(rows, b), CountIn(rows, b)))
  }

  /** `create_session_analysis_chart`: no chart with fewer than five viewers;
      otherwise one bar per bin in plotting order. */
  function SessionAnalysis(t: Table): (r: Option<seq<BinStat>>)
    ensures r.None? <==> |Viewers(t)| < 5
    ensures r.Some? ==> |r.value| == 5 && forall i :: 0 <= i < 5 ==> r.value[i].bin == BinOrder[i]
    ensures r.Some? ==> forall i :: 0 <= i < 5 ==> r.value[i] == BinStatOf(ViewerRows(t), BinOrder[i])
  {
    var rows := ViewerRows(t);
    if |rows| < 5 then None
    else Some(seq(5, i requires 0 <= i < 5 => BinStatOf(rows, BinOrder[i])))
  }

  /** A bar's rate is a number between 0 and 100 when its bin has users,
      and NaN when it has none. */
  lemma BinRateBounds(t: Table, i: nat)
    requires SessionAnalysis(t).Some? && i < 5
    ensures var s := SessionAnalysis(t).value[i];
      && (s.userCount > 0 ==> s.purchaseRate.Finite? && 0.0 <= s.purchaseRate.value <= 100.0)
      && (s.userCount == 0 <==> s.purchaseRate.NotANumber?)
  {
    var rows := ViewerRows(t);
    var b := BinOrder[i];
    var s := SessionAnalysis(t).value[i];
    assert s == BinStatOf(rows, b);
    if CountIn(rows, b) > 0 {
      GuardedRateMatchesPercent(BuyersIn(rows, b), CountIn(rows, b));
      GuardedRateBounds(BuyersIn(rows, b), CountIn(rows, b));
    }
  }

  function BinTotal(rows: seq<ViewerRow>): nat
  {
    CountIn(rows, OneProduct) + CountIn(rows, TwoProducts) + CountIn(rows, ThreeToFive)
      + CountIn(rows, SixToTen) + CountIn(rows, ElevenPlus)
  }

  /** Rows that each viewed something are counted in exactly one bin each. */
  lemma {:induction false} BinsPartitionRows(rows: seq<ViewerRow>)
    requires forall i :: 0 <= i < |rows| ==> rows[i].productsViewed >= 1
    ensures BinTotal(rows) == |rows|
  {
    if rows != [] {
      BinsPartitionRows(rows[1..]);
      var n := rows[0].productsViewed;
      assert InBin(n, BinOf(n).value);
    }
  }

  /** The bars' user counts add up to the number of viewers. */
  lemma BinCountsCoverViewers(t: Table)
    ensures BinTotal(ViewerRows(t)) == |Viewers(t)|
    ensures SessionAnalysis(t).Some? ==>
      var bars := SessionAnalysis(t).value;
      bars[0].userCount + bars[1].userCount + bars[2].userCount + bars[3].userCount + bars[4].userCount == |Viewers(t)|
  {
    var rows := ViewerRows(t);
    forall i | 0 <= i < |rows| ensures rows[i].productsViewed >= 1 {
      ViewerRowFacts(t, i);
    }
    BinsPartitionRows(rows);
  }

  // ---------------------------------------------------------------------
  // Behavior insights
  // ---------------------------------------------------------------------

  /** `df[df["BehaviorType"] == b]["UserID"].nunique()`. */
  function UserCount(t: Table, b: Behavior): nat
  {
    |UsersWith(t, b)|
  }

  predicate IsHeavy(r: ViewerRow) { r.productsViewed > 5 }
  predicate IsLight(r: ViewerRow) { !IsHeavy(r) }

  function PurchasedCount(rows: seq<ViewerRow>): (n: nat)
    ensures n <= |rows|
  {
    if rows == [] then 0 else (if rows[0].purchased then 1 else 0) + PurchasedCount(rows[1..])
  }

  /** `rows["Purchased"].mean() if not rows.empty else 0`. */
  function MeanPurchased(rows: seq<ViewerRow>): (m: real)
    ensures 0.0 <= m <= 1.0
  {
    if rows == [] then 0.0 else PurchasedCount(rows) as real / |rows| as real
  }

  /** `heavy / light if light > 0 and not isnan(light) else 0`. */
  function Multiplier(heavy: real, light: real): real
  {
    if light > 0.0 then heavy / light else 0.0
  }

  /** How much likelier a viewer of more than five products is to buy. */
  function BrowsingMultiplierOf(t: Table): real
  {
    var rows := ViewerRows(t);
    Multiplier(MeanPurchased(Filter(rows, IsHeavy)), MeanPurchased(Filter(rows, IsLight)))
  }

  /** A multiplier above 1.2 means the light browsers do buy, and the heavy
      browsers buy more than 1.2 times as often. */
  lemma MultiplierMeaning(heavy: real, light: real)
    requires Multiplier(heavy, light) > 1.2
    ensures light > 0.0 && heavy > 1.2 * light
  {
    var m := heavy / light;
    assert m * light == heavy;
  }

  /** The insights in the order they are appended; the text around each
      figure is not modelled. */
  datatype Insight =
    | BrowsingMultiplier(times: real)
    | ViewToCart(rate: real, carters: nat, viewers: nat)
    | CartToBuy(rate: real, buyers: nat, carters: nat)
    | FavToBuy(rate: real)
    | CartAbandonment(rate: real)
    | DefaultAdvice

  /** `(1 - buy / cart) * 100`. */
  function AbandonmentRate(buy: nat, cart: nat): real
    requires cart > 0
  {
    (1.0 - buy as real / cart as real) * 100.0
  }

  /** The insights whose gates open for the given multiplier and
      per-behavior user counts, in the order they are appended. */
  function Found(mult: real, pv: nat, cart: nat, fav: nat, buy: nat): (r: seq<Insight>)
    ensures |r| <= 5 && DefaultAdvice !in r
  {
    var viewToCart := GuardedRate(cart, pv);
    var cartToBuy := GuardedRate(buy, cart);
    (if mult > 1.2 then [BrowsingMultiplier(mult)] else [])
    + (if viewToCart > 0.0 then [ViewToCart(viewToCart, cart, pv)] else [])
    + (if cartToBuy > 0.0 then [CartToBuy(cartToBuy, buy, cart)] else [])
    + (if fav > 0 && buy > 0 && GuardedRate(buy, fav) > 0.0 then [FavToBuy(GuardedRate(buy, fav))] else [])
    + (if cart > 0 then [CartAbandonment(AbandonmentRate(buy, cart))] else [])
  }

  /** The insight list: the open gates' insights, or the default advice
      when none opens. */
  function InsightsFor(mult: real, pv: nat, cart: nat, fav: nat, buy: nat): (r: seq<Insight>)
    ensures 1 <= |r| <= 5
    ensures DefaultAdvice in r ==> r == [DefaultAdvice]
  {
    var found := Found(mult, pv, cart, fav, buy);
    if found == [] then [DefaultAdvice] else found
  }

  /** Which rate insights appear: each gate in terms of the user counts. */
  lemma InsightGates(mult: real, pv: nat, cart: nat, fav: nat, buy: nat)
    ensures var r := InsightsFor(mult, pv, cart, fav, buy);
      && (BrowsingMultiplier(mult) in r <==> mult > 1.2)
      && (ViewToCart(GuardedRate(cart, pv), cart, pv) in r <==> cart > 0 && pv > 0)
      && (CartToBuy(GuardedRate(buy, cart), buy, cart) in r <==> buy > 0 && cart > 0)
      && (FavToBuy(GuardedRate(buy, fav)) in r <==> fav > 0 && buy > 0)
  {
    var found := Found(mult, pv, cart, fav, buy);
    assert forall x :: x in InsightsFor(mult, pv, cart, fav, buy) && x != DefaultAdvice ==> x in found;
    assert found != [] ==> InsightsFor(mult, pv, cart, fav, buy) == found;
    FoundGates(mult, pv, cart, fav, buy);
  }

  lemma FoundGates(mult: real, pv: nat, cart: nat, fav: nat, buy: nat)
    ensures var r := Found(mult, pv, cart, fav, buy);
      && (BrowsingMultiplier(mult) in r <==> mult > 1.2)
      && (ViewToCart(GuardedRate(cart, pv), cart, pv) in r <==> cart > 0 && pv > 0)
      && (CartToBuy(GuardedRate(buy, cart), buy, cart) in r <==> buy > 0 && cart > 0)
      && (FavToBuy(GuardedRate(buy, fav)) in r <==> fav > 0 && buy > 0)
  {
    GuardedRatePositive(cart, pv);
    GuardedRatePositive(buy, cart);
    GuardedRatePositive(buy, fav);
  }

  /** The abandonment insight appears exactly when some user carted, and
      the default advice exactly when no gate opens. */
  lemma InsightDefault(mult: real, pv: nat, cart: nat, fav: nat, buy: nat)
    ensures var r := InsightsFor(mult, pv, cart, fav, buy);
      && (cart > 0 ==> CartAbandonment(AbandonmentRate(buy, cart)) in r)
      && (cart == 0 ==> forall i :: 0 <= i < |r| ==> !r[i].CartAbandonment?)
      && (r == [DefaultAdvice] <==> mult <= 1.2 && cart == 0 && (fav == 0 || buy == 0))
  {
    var found := Found(mult, pv, cart, fav, buy);
    assert InsightsFor(mult, pv, cart, fav, buy) == [DefaultAdvice] <==> found == [];
    GuardedRatePositive(cart, pv);
    GuardedRatePositive(buy, cart);
    GuardedRatePositive(buy, fav);
  }

  /** `generate_behavior_insights`, before the insights are joined into one
      string: the gates applied to this table's user counts. */
  function BehaviorInsights(t: Table): (r: seq<Insight>)
    ensures 1 <= |r| <= 5
    ensures r == [DefaultAdvice] <==>
      BrowsingMultiplierOf(t) <= 1.2 && UserCount(t, Cart) == 0 && (UserCount(t, Fav) == 0 || UserCount(t, Buy) == 0)
  {
    var mult, pv, cart, fav, buy := BrowsingMultiplierOf(t), UserCount(t, Pv), UserCount(t, Cart), UserCount(t, Fav), UserCount(t, Buy);
    InsightDefault(mult, pv, cart, fav, buy);
    InsightsFor(mult, pv, cart, fav, buy)
  }

  /** With items in carts, the abandonment rate and the cart-to-buy rate
      add up to 100. */
  lemma AbandonmentComplementsConversion(buy: nat, cart: nat)
    requires cart > 0
    ensures AbandonmentRate(buy, cart) + GuardedRate(buy, cart) == 100.0
  {
  }
}
