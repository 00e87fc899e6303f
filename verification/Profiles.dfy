/** Profiles of m_config.c: named lists of options, which may include other profiles or themselves. */
module Profiles {
  import opened Common
  import StrList

  const MAX_PROFILE_DEPTH := 20
  const M_OPT_INVALID := -3
  const M_OPT_EXIT := -6

  datatype Mode = ConfigFile | CommandLine | CommandLinePreParse

  type Opts = seq<(string, string)>
  type Defs = map<string, Opts>

  /** An option that was set, and in which mode. */
  datatype Setting = Setting(name: string, value: string, mode: Mode)

  // ---------- what applying a profile means ----------

  predicate Includes(o: (string, string)) {
    o.0 == "profile"
  }

  /** The profiles an option value names, in order. */
  ghost function Listed(param: string): seq<string> {
    if param == "" || param == "help" then [] else StrList.Split(param, ',')
  }

  /** All that applying a profile sets, when `depth` profiles are being applied already. */
  ghost function Applied(defs: Defs, name: string, depth: nat): seq<Setting>
    decreases MAX_PROFILE_DEPTH + 1 - depth, 3
  {
    if name !in defs || depth > MAX_PROFILE_DEPTH then [] else AppliedOpts(defs, defs[name], depth + 1)
  }

  ghost function AppliedOpts(defs: Defs, opts: Opts, depth: nat): seq<Setting>
    requires depth <= MAX_PROFILE_DEPTH + 1
    decreases MAX_PROFILE_DEPTH + 1 - depth, 6, |opts|
  {
    if opts == [] then [] else AppliedOpts(defs, opts[..|opts| - 1], depth) + AppliedOpt(defs, opts[|opts| - 1], depth)
  }

  ghost function AppliedOpt(defs: Defs, o: (string, string), depth: nat): seq<Setting>
    requires depth <= MAX_PROFILE_DEPTH + 1
    decreases MAX_PROFILE_DEPTH + 1 - depth, 5
  {
    if Includes(o) then AppliedAll(defs, Listed(o.1), depth) else [Setting(o.0, o.1, ConfigFile)]
  }

  ghost function AppliedAll(defs: Defs, names: seq<string>, depth: nat): seq<Setting>
    requires depth <= MAX_PROFILE_DEPTH + 1
    decreases MAX_PROFILE_DEPTH + 1 - depth, 4, |names|
  {
    if names == [] then [] else AppliedAll(defs, names[..|names| - 1], depth) + Applied(defs, names[|names| - 1], depth)
  }

  lemma AppliedSnoc(defs: Defs, names: seq<string>, p: string, depth: nat)
    requires depth <= MAX_PROFILE_DEPTH + 1
    ensures AppliedAll(defs, names + [p], depth) == AppliedAll(defs, names, depth) + Applied(defs, p, depth)
    ensures p !in defs ==> Applied(defs, p, depth) == []
  {
    assert (names + [p])[..|names|] == names;
    hide AppliedOpts;
  }

  lemma AppliedOptsSnoc(defs: Defs, opts: Opts, o: (string, string), depth: nat)
    requires depth <= MAX_PROFILE_DEPTH + 1
    ensures AppliedOpts(defs, opts + [o], depth) == AppliedOpts(defs, opts, depth) + AppliedOpt(defs, o, depth)
  {
    assert (opts + [o])[..|opts|] == opts;
    hide AppliedOpt;
  }

  lemma AppliedNoOpts(defs: Defs, depth: nat)
    requires depth <= MAX_PROFILE_DEPTH + 1
    ensures AppliedOpts(defs, [], depth) == []
  {}

  lemma AppliedNone(defs: Defs, depth: nat)
    requires depth <= MAX_PROFILE_DEPTH + 1
    ensures AppliedAll(defs, [], depth) == []
  {}

  lemma ListedIs(param: string)
    requires param != "" && param != "help"
    ensures Listed(param) == StrList.Split(param, ',') && Listed(param) != []
  {}

  lemma StrListApplied(ys: seq<string>)
    ensures StrList.Applied(StrList.OpNone, [], ys, _ => None) == ys
  {}

  // ---------- profiles without includes ----------

  /** The settings of plain options, in order and as they are written. */
  lemma {:induction false} AppliedPlain(defs: Defs, opts: Opts, depth: nat)
    requires depth <= MAX_PROFILE_DEPTH + 1 && forall o :: o in opts ==> o.0 != "profile"
    ensures var all := AppliedOpts(defs, opts, depth);
      |all| == |opts| && forall i :: 0 <= i < |opts| ==> all[i] == Setting(opts[i].0, opts[i].1, ConfigFile)
    decreases |opts|
  {
    if opts != [] {
      assert opts[|opts| - 1] in opts;
      AppliedPlain(defs, opts[..|opts| - 1], depth);
    }
  }

  /** A profile that includes one other between plain options: what the other sets comes in its place. */
  lemma AppliedInclude(defs: Defs, name: string, a: Opts, p: string, b: Opts, depth: nat)
    requires name in defs && defs[name] == a + [("profile", p)] + b && depth <= 20
    requires p != "" && p != "help" && ',' !in p && forall o :: o in a || o in b ==> o.0 != "profile"
    ensures var all := Applied(defs, name, depth);
      var inner := Applied(defs, p, depth + 1);
      && |all| == |a| + |inner| + |b|
      && (forall i :: 0 <= i < |a| ==> all[i] == Setting(a[i].0, a[i].1, ConfigFile))
      && all[|a|..|a| + |inner|] == inner
      && (forall i :: 0 <= i < |b| ==> all[|a| + |inner| + i] == Setting(b[i].0, b[i].1, ConfigFile))
  {
    hide Applied;
    var d := depth + 1;
    AppliedPlain(defs, a, d);
    AppliedPlain(defs, b, d);
    AppliedConcat(defs, a + [("profile", p)], b, d);
    AppliedOptsSnoc(defs, a, ("profile", p), d);
    AppliedOne(defs, p, d);
    AppliedIs(defs, name, depth);
  }

  lemma AppliedIs(defs: Defs, name: string, depth: nat)
    requires name in defs && depth <= 20
    ensures Applied(defs, name, depth) == AppliedOpts(defs, defs[name], depth + 1)
  {}

  lemma AppliedOne(defs: Defs, p: string, depth: nat)
    requires depth <= MAX_PROFILE_DEPTH + 1 && p != "" && p != "help" && ',' !in p
    ensures AppliedOpt(defs, ("profile", p), depth) == Applied(defs, p, depth)
  {
    OneName(p);
    assert [p][..0] == [];
    assert AppliedAll(defs, [], depth) == [];
    assert AppliedAll(defs, [p], depth) == Applied(defs, p, depth);
  }

  lemma {:induction false} AppliedConcat(defs: Defs, a: Opts, b: Opts, depth: nat)
    requires depth <= MAX_PROFILE_DEPTH + 1
    ensures AppliedOpts(defs, a + b, depth) == AppliedOpts(defs, a, depth) + AppliedOpts(defs, b, depth)
    decreases |b|
  {
    if b == [] {
      assert a + b == a;
    } else {
      assert (a + b)[..|a + b| - 1] == a + b[..|b| - 1];
      AppliedConcat(defs, a, b[..|b| - 1], depth);
    }
  }

  // ---------- the depth bound ----------

  /** A profile that includes others no deeper than `rank` levels. */
  ghost predicate Nested(defs: Defs, name: string, rank: nat)
    decreases rank
  {
    name in defs ==>
      forall o :: o in defs[name] && Includes(o) ==>
        forall p :: p in Listed(o.1) ==> rank > 0 && Nested(defs, p, rank - 1)
  }

  /** A profile nested no deeper than the bound allows is applied in full: the bound does not show. */
  lemma {:induction false} BoundUnseen(defs: Defs, name: string, rank: nat, d: nat, e: nat)
    requires Nested(defs, name, rank) && d + rank <= MAX_PROFILE_DEPTH && e + rank <= MAX_PROFILE_DEPTH
    ensures Applied(defs, name, d) == Applied(defs, name, e)
    decreases rank, 2
  {
    if name in defs {
      BoundUnseenOpts(defs, name, defs[name], rank, d, e);
    }
  }

  lemma {:induction false} BoundUnseenOpts(defs: Defs, name: string, opts: Opts, rank: nat, d: nat, e: nat)
    requires name in defs && Nested(defs, name, rank) && d + rank <= MAX_PROFILE_DEPTH && e + rank <= MAX_PROFILE_DEPTH
    requires forall o :: o in opts ==> o in defs[name]
    ensures AppliedOpts(defs, opts, d + 1) == AppliedOpts(defs, opts, e + 1)
    decreases rank, 1, |opts|
  {
    if opts != [] {
      var o := opts[|opts| - 1];
      assert o in opts;
      BoundUnseenOpts(defs, name, opts[..|opts| - 1], rank, d, e);
      if Includes(o) {
        BoundUnseenAll(defs, name, o, Listed(o.1), rank, d, e);
      }
    }
  }

  lemma {:induction false} BoundUnseenAll(defs: Defs, name: string, o: (string, string), names: seq<string>,
      rank: nat, d: nat, e: nat)
    requires name in defs && Nested(defs, name, rank) && d + rank <= MAX_PROFILE_DEPTH && e + rank <= MAX_PROFILE_DEPTH
    requires o in defs[name] && Includes(o) && forall p :: p in names ==> p in Listed(o.1)
    ensures AppliedAll(defs, names, d + 1) == AppliedAll(defs, names, e + 1)
    decreases rank, 0, |names|
  {
    if names != [] {
      var p := names[|names| - 1];
      assert p in names;
      BoundUnseenAll(defs, name, o, names[..|names| - 1], rank, d, e);
      BoundUnseen(defs, p, rank - 1, d + 1, e + 1);
    }
  }

  /** A profile that does nothing but set one option and include itself sets it once for each level allowed. */
  lemma {:induction false} SelfIncluding(defs: Defs, name: string, o: (string, string), depth: nat)
    requires name in defs && name != "" && name != "help" && ',' !in name && '\\' !in name
    requires !Includes(o) && defs[name] == [o, ("profile", name)] && depth <= MAX_PROFILE_DEPTH + 1
    ensures |Applied(defs, name, depth)| == 21 - depth
    ensures forall s :: s in Applied(defs, name, depth) ==> s == Setting(o.0, o.1, ConfigFile)
    decreases MAX_PROFILE_DEPTH + 1 - depth
  {
    if depth <= MAX_PROFILE_DEPTH {
      SelfIncluding(defs, name, o, depth + 1);
      SelfStep(defs, name, o, depth);
    } else {
      AppliedTooDeep(defs, name, depth);
    }
  }

  lemma AppliedTooDeep(defs: Defs, name: string, depth: nat)
    ensures depth > 20 ==> Applied(defs, name, depth) == []
  {}

  lemma SelfStep(defs: Defs, name: string, o: (string, string), depth: nat)
    requires name in defs && name != "" && name != "help" && ',' !in name && !Includes(o) && depth <= 20
    requires defs[name] == [o, ("profile", name)]
    ensures Applied(defs, name, depth) == [Setting(o.0, o.1, ConfigFile)] + Applied(defs, name, depth + 1)
  {
    hide Applied, AppliedOpts, AppliedOpt;
    var d := depth + 1;
    AppliedIs(defs, name, depth);
    AppliedPlain(defs, [o], d);
    AppliedOptsSnoc(defs, [o], ("profile", name), d);
    AppliedOne(defs, name, d);
    assert defs[name] == [o] + [("profile", name)];
    assert AppliedOpts(defs, [o], d) == [Setting(o.0, o.1, ConfigFile)];
  }

  lemma OneName(name: string)
    requires name != "" && ',' !in name
    ensures StrList.Split(name, ',') == [name]
  {
    StrList.ElementEnds(name, "", ',');
    assert name + "" == name;
  }

  // ---------- applying ----------

  class Profiles {
    var mode: Mode
    var profileDepth: nat
    const defs: Defs
    var settings: seq<Setting>   // what was set so far

    constructor (defs: Defs)
      ensures this.defs == defs && profileDepth == 0 && settings == []
    {
      this.defs := defs;
      mode, profileDepth, settings := CommandLine, 0, [];
    }

    /** `m_config_set_profile`. */
    method SetProfile(name: string)
      requires name in defs
      modifies this
      ensures mode == old(mode) && profileDepth == old(profileDepth)
      ensures settings == old(settings) + Applied(defs, name, old(profileDepth))
      ensures old(profileDepth) <= 20 && (forall o :: o in defs[name] ==> o.0 != "profile") ==>
        && |settings| == |old(settings)| + |defs[name]|
        && forall i :: 0 <= i < |defs[name]| ==>
          settings[|old(settings)| + i] == Setting(defs[name][i].0, defs[name][i].1, ConfigFile)
      ensures old(profileDepth) > 20 ==> settings == old(settings)
      decreases MAX_PROFILE_DEPTH + 1 - profileDepth, 3
    {
      hide AppliedOpts, AppliedOpt, AppliedAll;
      if profileDepth > MAX_PROFILE_DEPTH {
        return;
      }
      var prevMode := mode;
      mode := ConfigFile;
      profileDepth := profileDepth + 1;
      var opts := defs[name];
      AppliedNoOpts(defs, profileDepth);
      assert opts[..0] == [];
      for i := 0 to |opts|
        invariant mode == ConfigFile && profileDepth == old(profileDepth) + 1
        invariant settings == old(settings) + AppliedOpts(defs, opts[..i], profileDepth)
      {
        assert opts[..i + 1] == opts[..i] + [opts[i]] && opts[i] == (opts[i].0, opts[i].1);
        AppliedOptsSnoc(defs, opts[..i], opts[i], profileDepth);
        var _ := SetOption(opts[i].0, opts[i].1);
      }
      assert opts[..|opts|] == opts;
      if forall o :: o in opts ==> o.0 != "profile" {
        AppliedPlain(defs, opts, profileDepth);
      }
      profileDepth := profileDepth - 1;
      mode := prevMode;
    }

    /** Setting an option out of a profile. */
    method SetOption(name: string, value: string) returns (r: int)
      requires mode == ConfigFile && profileDepth <= MAX_PROFILE_DEPTH + 1
      modifies this
      ensures mode == old(mode) && profileDepth == old(profileDepth)
      ensures settings == old(settings) + AppliedOpt(defs, (name, value), profileDepth)
      decreases MAX_PROFILE_DEPTH + 1 - profileDepth, 5
    {
      if name == "profile" {
        r := ParseProfile(value);
      } else {
        settings := settings + [Setting(name, value, mode)];
        r := 1;
      }
    }

    /** `parse_profile`: applies every profile that is listed and known. */
    method ParseProfile(param: string) returns (r: int)
      requires profileDepth <= MAX_PROFILE_DEPTH + 1
      modifies this
      ensures mode == old(mode) && profileDepth == old(profileDepth)
      ensures settings == old(settings) + AppliedAll(defs, Listed(param), profileDepth)
      ensures r == if param == "help" then -7 else if param == "" then -2
                   else if forall p :: p in Listed(param) ==> p in defs then 1 else -3
      decreases MAX_PROFILE_DEPTH + 1 - profileDepth, 4
    {
      hide AppliedAll, Applied, StrList.Split, StrList.Applied;
      AppliedNone(defs, profileDepth);
      if param == "help" {
        return M_OPT_EXIT - 1;
      }
      if param != "" {
        ListedIs(param);
      }
      var code, list := StrList.ParseStrList(StrList.OpNone, param, ',', None, None, null, _ => None, []);
      if code < 0 {
        return code;
      }
      ghost var names := StrList.Split(param, ',');
      StrListApplied(names);
      r := code;
      var i := 0;
      assert names[..0] == [];
      while list[i].Some?
        invariant 0 <= i <= |names| && StrList.IsList(list, names) && list != null && fresh(list)
        invariant mode == old(mode) && profileDepth == old(profileDepth)
        invariant settings == old(settings) + AppliedAll(defs, names[..i], profileDepth)
        invariant r == if forall p :: p in names[..i] ==> p in defs then 1 else M_OPT_INVALID
        decreases |names| - i
      {
        assert names[..i + 1] == names[..i] + [names[i]];
        AppliedSnoc(defs, names[..i], names[i], profileDepth);
        var p := list[i].value;
        if p !in defs {
          r := M_OPT_INVALID;
        } else {
          SetProfile(p);
        }
        i := i + 1;
      }
      assert names[..i] == names;
    }
  }
}
