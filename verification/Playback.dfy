/** From the command line to what is played: the playlist is built, cleaned up and walked. */
module Playback {
  import opened PlayTree
  import PlayTreeEdit
  import PlayTreeIter
  import CommandLine
  import Config

  type Items = seq<CommandLine.Item>

  /** A file as it is played: its name, and the parameters that apply to it, outermost first. */
  datatype Track = Track(name: string, params: Params)

  /** What a playlist plays, in order, when the parameters `outer` apply to all of it; groups without end are
      unrolled `n + 1` times. */
  ghost function Tracks(items: Items, n: nat, outer: Params): seq<Track>
    decreases items, 1
  {
    if items == [] then [] else TracksOf(items[0], n, outer) + Tracks(items[1..], n, outer)
  }

  ghost function TracksOf(it: CommandLine.Item, n: nat, outer: Params): seq<Track>
    decreases it, 0
  {
    match it
    case Leaf(name, params) => [Track(name, outer + params)]
    case Branch(kids, loop, params) => Repeat(Tracks(kids, n, outer + params), Times(loop, n))
  }

  lemma {:induction false} RepeatMember<T>(s: seq<T>, n: nat, x: T)
    requires x in Repeat(s, n)
    ensures x in s
  {
    if x !in s {
      RepeatMember(s, n - 1, x);
    }
  }

  /** What is set for a file comes behind what is set for everything around it: for a file on its own, `outer` and then
      its own parameters; in a group, `outer`, then those of the group, then further ones. */
  lemma {:induction false} TrackParams(it: CommandLine.Item, n: nat, outer: Params, t: Track)
    requires t in TracksOf(it, n, outer)
    ensures it.Leaf? ==> t == Track(it.name, outer + it.params)
    ensures it.Branch? ==> t in Tracks(it.kids, n, outer + it.params) && outer + it.params <= t.params
    decreases it, 0
  {
    if it.Branch? {
      RepeatMember(Tracks(it.kids, n, outer + it.params), Times(it.loop, n), t);
      TracksParams(it.kids, n, outer + it.params, t);
    }
  }

  lemma {:induction false} TracksParams(items: Items, n: nat, outer: Params, t: Track)
    requires t in Tracks(items, n, outer)
    ensures outer <= t.params && exists it :: it in items && t in TracksOf(it, n, outer)
    decreases items, 1
  {
    if t in TracksOf(items[0], n, outer) {
      TrackParams(items[0], n, outer, t);
      assert items[0] in items;
    } else {
      TracksParams(items[1..], n, outer, t);
      var it :| it in items[1..] && t in TracksOf(it, n, outer);
      assert it in items;
    }
  }

  // ---------- the same for trees ----------

  /** The entries of a tree in playing order, each with the parameters that apply to it. */
  ghost function Cues(t: PT, n: nat, outer: Params): seq<(Id, Params)>
    decreases t, 0
  {
    match t
    case Entry(x, params, _) => [(x, outer + params)]
    case Group(_, params, loop, kids) => Repeat(CuesAll(kids, n, outer + params), Times(loop, n))
  }

  ghost function CuesAll(ts: seq<PT>, n: nat, outer: Params): seq<(Id, Params)>
    decreases ts, 1
  {
    if ts == [] then [] else Cues(ts[0], n, outer) + CuesAll(ts[1..], n, outer)
  }

  ghost function Firsts(cs: seq<(Id, Params)>): (r: seq<Id>)
    ensures |r| == |cs|
  {
    seq(|cs|, i requires 0 <= i < |cs| => cs[i].0)
  }

  function NameOf(names: CommandLine.Names, x: Id): string {
    if x in names then names[x] else ""
  }

  ghost function Named(names: CommandLine.Names, cs: seq<(Id, Params)>): (r: seq<Track>)
    ensures |r| == |cs|
  {
    seq(|cs|, i requires 0 <= i < |cs| => Track(NameOf(names, cs[i].0), cs[i].1))
  }

  lemma MapConcat(names: CommandLine.Names, a: seq<(Id, Params)>, b: seq<(Id, Params)>)
    ensures Named(names, a + b) == Named(names, a) + Named(names, b)
    ensures Firsts(a + b) == Firsts(a) + Firsts(b)
  {}

  lemma {:induction false} MapRepeat(names: CommandLine.Names, s: seq<(Id, Params)>, n: nat)
    ensures Named(names, Repeat(s, n)) == Repeat(Named(names, s), n)
    ensures Firsts(Repeat(s, n)) == Repeat(Firsts(s), n)
  {
    if n > 0 {
      MapRepeat(names, s, n - 1);
      MapConcat(names, s, Repeat(s, n - 1));
    }
  }

  /** The entries of a tree in playing order are the files of the playlist it stands for, with their parameters. */
  lemma {:induction false} TracksFlat(t: PT, names: CommandLine.Names, n: nat, outer: Params)
    ensures Named(names, Cues(t, n, outer)) == TracksOf(CommandLine.ItemOf(t, names), n, outer)
    ensures Firsts(Cues(t, n, outer)) == Flat(t, n)
    decreases t, 0
  {
    if t.Group? {
      TracksFlatAll(t.kids, names, n, outer + t.params);
      MapRepeat(names, CuesAll(t.kids, n, outer + t.params), Times(t.loop, n));
    }
  }

  lemma {:induction false} TracksFlatAll(ts: seq<PT>, names: CommandLine.Names, n: nat, outer: Params)
    ensures Named(names, CuesAll(ts, n, outer)) == Tracks(CommandLine.ItemsOf(ts, names), n, outer)
    ensures Firsts(CuesAll(ts, n, outer)) == FlatAll(ts, n)
    decreases ts, 1
  {
    if ts != [] {
      TracksFlat(ts[0], names, n, outer);
      TracksFlatAll(ts[1..], names, n, outer);
      MapConcat(names, Cues(ts[0], n, outer), CuesAll(ts[1..], n, outer));
      assert CommandLine.ItemsOf(ts, names)[1..] == CommandLine.ItemsOf(ts[1..], names);
    }
  }

  // ---------- cleaning up ----------

  lemma {:induction false} RepeatNoCues(n: nat)
    ensures Repeat<(Id, Params)>([], n) == []
  {
    if n > 0 {
      RepeatNoCues(n - 1);
    }
  }

  /** Cleaning up changes neither what is played nor the parameters it is played with. */
  lemma {:induction false} CuesCleaned(t: PT, n: nat, outer: Params)
    ensures Playable(t) ==> Cues(PlayTreeEdit.Cleaned(t), n, outer) == Cues(t, n, outer)
    ensures !Playable(t) ==> Cues(t, n, outer) == []
    decreases t, 0
  {
    if t.Group? {
      CuesCleanedAll(t.kids, n, outer + t.params);
      if !Playable(t) {
        PlayTreeEdit.NothingKept(t.kids);
        RepeatNoCues(Times(t.loop, n));
      }
    }
  }

  lemma {:induction false} CuesCleanedAll(ts: seq<PT>, n: nat, outer: Params)
    ensures CuesAll(PlayTreeEdit.CleanedAll(ts), n, outer) == CuesAll(ts, n, outer)
    decreases ts, 1
  {
    if ts != [] {
      CuesCleaned(ts[0], n, outer);
      CuesCleanedAll(ts[1..], n, outer);
      if Playable(ts[0]) {
        assert PlayTreeEdit.CleanedAll(ts)[1..] == PlayTreeEdit.CleanedAll(ts[1..]);
      } else {
        assert PlayTreeEdit.CleanedAll(ts) == PlayTreeEdit.CleanedAll(ts[1..]);
      }
    }
  }

  /** A tree that was cleaned up is ready to be walked. */
  lemma ReadyToPlay(n: Nodes, m: Nodes, t: PT)
    requires IsTree(n, t) && PlayTreeEdit.Tidy(t) && Playable(t) && PlayTreeEdit.IsList(n, [t], Null)
    requires PlayTreeEdit.CleanedOk(n, m, t)
    ensures var c := PlayTreeEdit.Cleaned(t);
      AreTrees(m, [c], Null) && AllClean([c]) && c.id == t.id && PlayTreeEdit.Tidy(c)
    ensures forall k: nat :: Flat(PlayTreeEdit.Cleaned(t), k) == Flat(t, k)
  {
    PlayTreeEdit.CleanedClean(t);
    PlayTreeEdit.CleanedKeepsRoot(t);
    PlayTreeEdit.CleanedIds(t);
    forall k: nat ensures Flat(PlayTreeEdit.Cleaned(t), k) == Flat(t, k) {
      PlayTreeEdit.FlatCleaned(t, k);
    }
    RootLinks(n, m, t);
  }

  lemma RootLinks(n: Nodes, m: Nodes, t: PT)
    requires PlayTreeEdit.Tidy(t) && PlayTreeEdit.IsList(n, [t], Null) && PlayTreeEdit.CleanedOk(n, m, t)
    ensures Siblings(m, [PlayTreeEdit.Cleaned(t)], Null)
  {
    PlayTreeEdit.CleanedKeepsRoot(t);
    SiblingAt(n, [t], Null, 0);
    assert t.id !in PlayTreeEdit.IdsAll(PlayTreeEdit.Kids(t));
    assert t.id in PlayTreeEdit.Ids(t);
    assert SiblingOk(m, [PlayTreeEdit.Cleaned(t)], Null, 0);
  }

  // ---------- the parameters of an entry ----------

  /** The parameters that apply to the entry `x` of a tree. */
  ghost function ParamsIn(t: PT, outer: Params, x: Id): Params
    decreases t, 0
  {
    match t
    case Entry(_, params, _) => outer + params
    case Group(_, params, _, kids) => ParamsInAll(kids, outer + params, x)
  }

  ghost function ParamsInAll(ts: seq<PT>, outer: Params, x: Id): Params
    decreases ts, 1
  {
    if ts == [] then []
    else if x in PlayTreeEdit.Ids(ts[0]) then ParamsIn(ts[0], outer, x)
    else ParamsInAll(ts[1..], outer, x)
  }

  lemma {:induction false} CueParams(t: PT, n: nat, outer: Params, c: (Id, Params))
    requires PlayTreeEdit.Tidy(t) && c in Cues(t, n, outer)
    ensures c.0 in PlayTreeEdit.Ids(t) && c.1 == ParamsIn(t, outer, c.0)
    decreases t, 0
  {
    if t.Group? {
      RepeatMember(CuesAll(t.kids, n, outer + t.params), Times(t.loop, n), c);
      CueParamsAll(t.kids, n, outer + t.params, c);
    }
  }

  lemma {:induction false} CueParamsAll(ts: seq<PT>, n: nat, outer: Params, c: (Id, Params))
    requires PlayTreeEdit.TidyAll(ts) && c in CuesAll(ts, n, outer)
    ensures c.0 in PlayTreeEdit.IdsAll(ts) && c.1 == ParamsInAll(ts, outer, c.0)
    decreases ts, 1
  {
    if c in Cues(ts[0], n, outer) {
      CueParams(ts[0], n, outer, c);
    } else {
      CueParamsAll(ts[1..], n, outer, c);
    }
  }

  /** The parameters of the groups above a position. */
  ghost function AboveParams(p: Path): Params
    decreases p
  {
    match p
    case Top(_, _) => []
    case In(_, _, _, up) => if up.i < |up.kids| then AboveParams(up) + Cur(up).params else []
  }

  lemma {:induction false} ParamsAt(ts: seq<PT>, outer: Params, i: nat, x: Id)
    requires PlayTreeEdit.TidyAll(ts) && i < |ts| && x in PlayTreeEdit.Ids(ts[i])
    ensures ParamsInAll(ts, outer, x) == ParamsIn(ts[i], outer, x)
    decreases i
  {
    if i > 0 {
      PlayTreeEdit.TidyOf(ts, i);
      ParamsAt(ts[1..], outer, i - 1, x);
    }
  }

  /** An entry is found at the end of its path. */
  lemma {:induction false} PathParams(p: Path, top: seq<PT>, x: Id)
    requires PathOk(p, top) && PlayTreeEdit.TidyAll(top) && x in PlayTreeEdit.Ids(Cur(p))
    ensures PlayTreeEdit.TidyAll(p.kids) && x in PlayTreeEdit.IdsAll(p.kids)
    ensures ParamsInAll(top, [], x) == ParamsIn(Cur(p), AboveParams(p), x)
    decreases p
  {
    PlayTreeEdit.IdsOf(p.kids, p.i);
    match p
    case Top(_, i) => ParamsAt(top, [], i, x);
    case In(kids, i, _, up) =>
      PathTidy(up, top);
      PathParams(up, top, x);
      ParamsAt(kids, AboveParams(up) + Cur(up).params, i, x);
  }

  lemma {:induction false} PathTidy(p: Path, top: seq<PT>)
    requires PathOk(p, top) && PlayTreeEdit.TidyAll(top)
    ensures PlayTreeEdit.TidyAll(p.kids) && PlayTreeEdit.Tidy(Cur(p))
    decreases p
  {
    if p.In? {
      PathTidy(p.up, top);
    }
    PlayTreeEdit.TidyOf(p.kids, p.i);
  }

  lemma {:induction false} ApplyConcat(defs: seq<Config.Opt>, parse: PlayTreeIter.Parser, v: Config.Vars, a: Params,
                                       b: Params)
    ensures PlayTreeIter.ApplyAll(defs, parse, v, a + b) ==
      PlayTreeIter.ApplyAll(defs, parse, PlayTreeIter.ApplyAll(defs, parse, v, a), b)
    decreases |a|
  {
    if a == [] {
      assert a + b == b;
    } else {
      assert (a + b)[1..] == a[1..] + b;
      ApplyConcat(defs, parse, Config.SetTo(defs, parse, v, a[0].0, a[0].1), a[1..], b);
    }
  }

  /** The overlay along a path is what the parameters above it set. */
  lemma {:induction false} OverlayIs(defs: seq<Config.Opt>, parse: PlayTreeIter.Parser, base: Config.Vars, p: Path)
    ensures PlayTreeIter.Overlay(defs, parse, base, p) == PlayTreeIter.ApplyAll(defs, parse, base, AboveParams(p))
    decreases p
  {
    if p.In? && p.up.i < |p.up.kids| {
      OverlayIs(defs, parse, base, p.up);
      ApplyConcat(defs, parse, base, AboveParams(p.up), Cur(p.up).params);
    }
  }

  // ---------- how often an entry plays ----------

  /** The product of the loop counts of the groups above a position, where 0 counts once. */
  ghost function Product(p: Path): nat
    decreases p
  {
    match p
    case Top(_, _) => 1
    case In(_, _, _, up) =>
      Product(up) * if up.i < |up.kids| && Cur(up).Group? && Cur(up).loop > 1 then Cur(up).loop else 1
  }

  lemma {:induction false} RepeatCount(s: seq<Id>, n: nat, x: Id)
    ensures multiset(Repeat(s, n))[x] == n * multiset(s)[x]
  {
    if n > 0 {
      RepeatCount(s, n - 1, x);
      assert n * multiset(s)[x] == multiset(s)[x] + (n - 1) * multiset(s)[x];
    }
  }

  lemma {:induction false} NotPlayed(t: PT, n: nat, x: Id)
    requires x !in PlayTreeEdit.Ids(t)
    ensures multiset(Flat(t, n))[x] == 0
    decreases t, 0
  {
    if t.Group? {
      NotPlayedAll(t.kids, n, x);
      RepeatCount(FlatAll(t.kids, n), Times(t.loop, n), x);
    }
  }

  lemma {:induction false} NotPlayedAll(ts: seq<PT>, n: nat, x: Id)
    requires x !in PlayTreeEdit.IdsAll(ts)
    ensures multiset(FlatAll(ts, n))[x] == 0
    decreases ts, 1
  {
    if ts != [] {
      NotPlayed(ts[0], n, x);
      NotPlayedAll(ts[1..], n, x);
    }
  }

  /** What is in one of several trees plays as often as in that one. */
  lemma {:induction false} CountAt(ts: seq<PT>, n: nat, i: nat, x: Id)
    requires PlayTreeEdit.TidyAll(ts) && i < |ts| && x in PlayTreeEdit.Ids(ts[i])
    ensures multiset(FlatAll(ts, n))[x] == multiset(Flat(ts[i], n))[x]
    decreases i
  {
    if i == 0 {
      NotPlayedAll(ts[1..], n, x);
    } else {
      PlayTreeEdit.IdsOf(ts[1..], i - 1);
      NotPlayed(ts[0], n, x);
      CountAt(ts[1..], n, i - 1, x);
    }
  }

  /** A node plays as often in the whole as in itself, times the loop counts above it. */
  lemma {:induction false} CountAbove(p: Path, top: seq<PT>, n: nat, x: Id)
    requires PathOk(p, top) && PlayTreeEdit.TidyAll(top) && PlayTreeIter.Finite(top) && x in PlayTreeEdit.Ids(Cur(p))
    ensures multiset(FlatAll(top, n))[x] == Product(p) * multiset(Flat(Cur(p), n))[x]
    decreases p
  {
    hide FlatAll, Flat, PlayTreeEdit.TidyAll, PlayTreeEdit.Tidy, PlayTreeEdit.Ids, PlayTreeIter.Finite;
    PathTidy(p, top);
    CountAt(p.kids, n, p.i, x);
    if p.In? {
      PlayTreeEdit.IdsOf(p.kids, p.i);
      GroupHolds(Cur(p.up), x);
      PlayTreeIter.FiniteSupply(p.up, top, 0);
      CountAbove(p.up, top, n, x);
      CountGroup(Cur(p.up), n, x);
      Associates(Product(p.up), if Cur(p.up).loop > 1 then Cur(p.up).loop else 1, multiset(Flat(Cur(p), n))[x]);
    }
  }

  lemma GroupHolds(t: PT, x: Id)
    requires t.Group? && x in PlayTreeEdit.IdsAll(t.kids)
    ensures x in PlayTreeEdit.Ids(t)
  {}

  lemma CountGroup(t: PT, n: nat, x: Id)
    requires t.Group? && PlayTreeIter.NoEndless(t)
    ensures multiset(Flat(t, n))[x] == (if t.loop > 1 then t.loop else 1) * multiset(FlatAll(t.kids, n))[x]
  {
    hide FlatAll;
    RepeatCount(FlatAll(t.kids, n), Times(t.loop, n), x);
  }

  lemma Associates(a: nat, b: nat, c: nat)
    ensures a * (b * c) == a * b * c
  {}

  /** Without endless groups an entry plays as often as the loop counts of the groups around it multiply to. */
  lemma EntryPlays(p: Path, top: seq<PT>, n: nat)
    requires PathOk(p, top) && PlayTreeEdit.TidyAll(top) && PlayTreeIter.Finite(top) && Cur(p).Entry?
    ensures multiset(FlatAll(top, n))[Cur(p).id] == Product(p)
  {
    hide FlatAll, Flat, Product, PlayTreeEdit.TidyAll, PlayTreeIter.Finite;
    EntryOnce(Cur(p), n);
    CountAbove(p, top, n, Cur(p).id);
  }

  lemma EntryOnce(t: PT, n: nat)
    requires t.Entry?
    ensures t.id in PlayTreeEdit.Ids(t) && multiset(Flat(t, n))[t.id] == 1
  {
    assert Flat(t, n) == [t.id];
  }

  // ---------- from arguments to what is played ----------

  /** What came out for a track: its name, and the values that the track sets over the base values. */
  ghost predicate PlaysTrack(s: set<Config.Var>, defs: seq<Config.Opt>, parse: PlayTreeIter.Parser, base: Config.Vars,
                             played: (string, Config.Vars), track: Track) {
    && played.0 == track.name
    && Config.SameOn(s, played.1, PlayTreeIter.ApplyAll(defs, parse, base, track.params))
  }

  /** A saved variable plays with the value that the track sets last, whichever group or entry sets it: `i` is the
      first option of the name in the `k`-th parameter. */
  lemma TrackValue(s: set<Config.Var>, defs: seq<Config.Opt>, parse: PlayTreeIter.Parser, base: Config.Vars,
                   played: (string, Config.Vars), track: Track, k: nat, i: nat)
    requires PlaysTrack(s, defs, parse, base, played, track) && k < |track.params| && i < |defs|
    requires defs[i].name == track.params[k].0 && forall m :: 0 <= m < i ==> defs[m].name != track.params[k].0
    requires defs[i].v.Some? && defs[i].v.value in s && !defs[i].hasChild
    requires parse(track.params[k].0, track.params[k].1).Some?
    requires PlayTreeIter.LeavesAlone(defs, parse, track.params[k + 1..], defs[i].v.value)
    ensures defs[i].v.value in played.1
    ensures played.1[defs[i].v.value] == parse(track.params[k].0, track.params[k].1).value
  {
    PlayTreeIter.LastSet(defs, parse, base, track.params, k, i);
  }

  /** One that the track does not set plays with its value from before. */
  lemma TrackKeeps(s: set<Config.Var>, defs: seq<Config.Opt>, parse: PlayTreeIter.Parser, base: Config.Vars,
                   played: (string, Config.Vars), track: Track, v: Config.Var)
    requires PlaysTrack(s, defs, parse, base, played, track) && v in s && v in base
    requires PlayTreeIter.LeavesAlone(defs, parse, track.params, v)
    ensures v in played.1 && played.1[v] == base[v]
  {
    PlayTreeIter.NeverSet(defs, parse, base, track.params, v);
  }

  lemma TrackPlayed(s: set<Config.Var>, defs: seq<Config.Opt>, parse: PlayTreeIter.Parser, base: Config.Vars, c: PT,
                    n: nat, e: PlayTreeIter.Played, p: Path, cue: (Id, Params), names: CommandLine.Names)
    requires PlayTreeIter.OwnOption(s, defs, parse, base, [c], e, p) && PlayTreeEdit.Tidy(c)
    requires cue in Cues(c, n, []) && cue.0 == e.id
    ensures PlaysTrack(s, defs, parse, base, (NameOf(names, e.id), e.vars), Track(NameOf(names, cue.0), cue.1))
  {
    CueParams(c, n, [], cue);
    assert PlayTreeEdit.TidyAll([c]) by { assert [c][1..] == []; }
    PathParams(p, [c], e.id);
    ParamsAt([c], [], 0, e.id);
    OverlayIs(defs, parse, base, p);
    ApplyConcat(defs, parse, base, AboveParams(p), Cur(p).params);
  }

  /** The names and the option values of a log. */
  method LogNames(log: seq<PlayTreeIter.Played>, names: CommandLine.Names) returns (out: seq<(string, Config.Vars)>)
    ensures |out| == |log| && forall i :: 0 <= i < |log| ==> out[i] == (NameOf(names, log[i].id), log[i].vars)
  {
    out := [];
    for i := 0 to |log|
      invariant |out| == i && forall j :: 0 <= j < i ==> out[j] == (NameOf(names, log[j].id), log[j].vars)
    {
      out := out + [(NameOf(names, log[i].id), log[i].vars)];
    }
  }

  lemma OneTree(t: PT, n: nat)
    ensures FlatAll([t], n) == Flat(t, n) && [t][0..] == [t]
  {
    assert [t][1..] == [];
    assert FlatAll([], n) == [];
    assert Flat(t, n) + [] == Flat(t, n);
  }

  /** The log of a tree is the beginning of its tracks. */
  lemma LogTracks(it: PlayTreeIter.PlayTreeIter, log: seq<PlayTreeIter.Played>, at: seq<Path>, c: PT, n: nat,
                  names: CommandLine.Names)
    requires |it.cfg.alias| == |it.cfg.defs| && PlayTreeIter.OwnOptions(it, log, at) && it.top == [c]
    requires PlayTreeEdit.Tidy(c)
    requires PlayTreeIter.Ids(log) <= Firsts(Cues(c, n, []))
    ensures var tracks := Named(names, Cues(c, n, []));
      |log| <= |tracks| && forall i :: 0 <= i < |log| ==>
        PlaysTrack(it.S(), it.cfg.defs, it.cfg.parse, it.base, (NameOf(names, log[i].id), log[i].vars), tracks[i])
  {
    hide Cues, PlaysTrack, PlayTreeIter.OwnOption;
    var cues := Cues(c, n, []);
    assert |PlayTreeIter.Ids(log)| == |log|;
    forall i | 0 <= i < |log|
      ensures PlaysTrack(it.S(), it.cfg.defs, it.cfg.parse, it.base, (NameOf(names, log[i].id), log[i].vars),
                         Named(names, cues)[i])
    {
      assert PlayTreeIter.Ids(log)[i] == Firsts(cues)[i];
      assert cues[i] in cues;
      TrackPlayed(it.S(), it.cfg.defs, it.cfg.parse, it.base, c, n, log[i], at[i], cues[i], names);
    }
  }

  /** A playlist given as arguments is built, cleaned up and played: at most `limit` files, which are the first files of
      the playlist, and all of them if there are fewer. Each one plays with the values that were set before anything
      was played, overlaid with the parameters of the groups around it and its own, and nothing else. */
  method PlayArguments(items: Items, loop: int, globals: Params, w: CommandLine.Style, cfg: Config.MConfig, limit: nat)
    returns (played: seq<(string, Config.Vars)>)
    requires CommandLine.Printable(items, w) && CommandLine.Proper(w) && items != [] && loop >= -1 && cfg.Valid()
    modifies cfg`lvl, cfg`slots, cfg`saved, cfg`vars
    ensures cfg.Valid()
    ensures |played| <= limit && |played| <= |TracksOf(CommandLine.Branch(items, loop, []), limit, [])|
    ensures |played| < limit ==> |played| == |TracksOf(CommandLine.Branch(items, loop, []), limit, [])|
    ensures forall i :: 0 <= i < |played| ==>
      PlaysTrack(Config.SavedVars(cfg.defs, cfg.alias), cfg.defs, cfg.parse, old(cfg.vars), played[i],
                 TracksOf(CommandLine.Branch(items, loop, []), limit, [])[i])
  {
    hide *;
    var b, root := CommandLine.Rebuild(items, loop, globals, w);
    ghost var t, n := b.tree, b.store.n;
    TracksFlat(t, b.names, limit, []);
    CuesCleaned(t, limit, []);
    var r := b.store.Cleanup(b.root, t);
    if r.Null? {
      return [];
    }
    ghost var c := PlayTreeEdit.Cleaned(t);
    ReadyToPlay(n, b.store.n, t);
    OneTree(c, limit);
    TracksFlat(c, b.names, limit, []);
    var it := new PlayTreeIter.PlayTreeIter(b.store.n, [c], 0, b.root, cfg, limit);
    var log, at := PlayTreeIter.Play(it, limit);
    LogLength(log);
    CfgShape(cfg);
    SavedSet(it);
    LogTracks(it, log, at, c, limit, b.names);
    played := LogNames(log, b.names);
  }

  lemma SavedSet(it: PlayTreeIter.PlayTreeIter)
    requires |it.cfg.alias| == |it.cfg.defs|
    ensures it.S() == Config.SavedVars(it.cfg.defs, it.cfg.alias)
  {}

  lemma CfgShape(cfg: Config.MConfig)
    requires cfg.Valid()
    ensures |cfg.alias| == |cfg.defs|
  {}

  lemma LogLength(log: seq<PlayTreeIter.Played>)
    ensures |PlayTreeIter.Ids(log)| == |log|
  {}
}
