/** The option store of m_config.c: option variables with a stack of saved values per option. */
module Config {
  import opened Common

  type Var = int
  type Value = int

  /** A registered option. `v` is the variable it writes, if any. */
  datatype Opt = Opt(name: string, v: Option<Var>, hasChild: bool, global: bool, noSave: bool, hasCopy: bool)

  datatype Slot = Slot(lvl: nat, data: Option<Value>)

  type Vars = map<Var, Value>

  const M_OPT_UNKNOWN := -1
  const M_OPT_INVALID := -3

  /** Whether push and pop handle this entry of the option list. */
  predicate Saves(o: Opt, alias: bool) {
    !o.hasChild && !o.global && !o.noSave && !alias
  }

  /** The variables that push and pop save: those whose first registered option is saveable. */
  ghost function SavedVars(defs: seq<Opt>, alias: seq<bool>): set<Var>
    requires |alias| == |defs|
  {
    set i | 0 <= i < |defs| && Saves(defs[i], alias[i]) && defs[i].hasCopy && defs[i].v.Some? :: defs[i].v.value
  }

  /** The values after a pop: saved variables go back, the others stay. */
  ghost function Restored(now: Vars, then_: Vars, saved: set<Var>): Vars {
    map v | v in now :: if v in saved && v in then_ then then_[v] else now[v]
  }

  /** An alias shares its variable with an option registered earlier, and only the earliest one saves it. */
  ghost predicate AliasesOk(defs: seq<Opt>, alias: seq<bool>) {
    && |alias| == |defs|
    && (forall i :: 0 <= i < |defs| && alias[i] ==> defs[i].v.Some? && !defs[i].hasChild)
    && (forall i, j :: 0 <= i < j < |defs| && defs[i].v.Some? && defs[i].v == defs[j].v && !defs[i].hasChild ==>
          alias[i])
    && (forall i :: 0 <= i < |defs| && alias[i] ==> exists j :: i < j < |defs| && defs[j].v == defs[i].v)
  }

  /** Slot levels run down by one from the current level to 0. */
  ghost predicate LevelsOk(slots: seq<Slot>, lvl: nat) {
    |slots| == lvl + 1 && forall j :: 0 <= j < |slots| ==> slots[j].lvl == lvl - j
  }

  /** The slot under each pushed level holds the value its variable had at that push. */
  ghost predicate SlotsHold(o: Opt, slots: seq<Slot>, saved: seq<Vars>) {
    |slots| == |saved| + 2 &&
    (o.hasCopy && o.v.Some? ==>
      forall k {:trigger saved[k]} :: 0 <= k < |saved| && o.v.value in saved[k] ==>
        slots[|saved| - k].data == Some(saved[k][o.v.value]))
  }

  class MConfig {
    var defs: seq<Opt>      // newest first, as in the linked list
    var alias: seq<bool>    // M_CFG_OPT_ALIAS
    var slots: seq<seq<Slot>>
    var lvl: nat
    var vars: Vars
    const parse: (string, string) -> Option<Value>

    ghost var saved: seq<Vars> // the variables at each push not yet popped, oldest first

    ghost predicate Valid()
      reads this
    {
      && AliasesOk(defs, alias) && |slots| == |defs| == |alias|
      && lvl == |saved| + 1
      && (forall i :: 0 <= i < |defs| && Saves(defs[i], alias[i]) ==>
            LevelsOk(slots[i], lvl) && SlotsHold(defs[i], slots[i], saved))
      && (forall i :: 0 <= i < |defs| && defs[i].v.Some? ==> defs[i].v.value in vars)
      && (forall k :: 0 <= k < |saved| ==> saved[k].Keys == vars.Keys)
    }

    ghost function Saved(): set<Var>
      reads this
      requires |alias| == |defs|
    {
      SavedVars(defs, alias)
    }

    /** `m_config_new`: level 0 is the defaults, so the first level is 1. */
    constructor (initial: Vars, parse: (string, string) -> Option<Value>)
      ensures Valid() && defs == [] && lvl == 1 && vars == initial && saved == [] && this.parse == parse
    {
      defs, alias, slots := [], [], [];
      lvl := 1;
      vars := initial;
      this.parse := parse;
      saved := [];
    }

    /** `m_option_save`: the current value, for types that can be copied. */
    function Current(o: Opt): (r: Option<Value>)
      reads this
    {
      if o.hasCopy && o.v.Some? && o.v.value in vars then Some(vars[o.v.value]) else None
    }

    /** Find an option already registered for the same variable. */
    method FindAlias(o: Opt) returns (found: bool)
      ensures found <==> o.v.Some? && exists i :: 0 <= i < |defs| && defs[i].v == o.v
    {
      found := false;
      if o.v.None? {
        return;
      }
      for i := 0 to |defs|
        invariant forall k :: 0 <= k < i ==> defs[k].v != o.v
      {
        if defs[i].v == o.v {
          return true;
        }
      }
    }

    /** `m_config_add_option`, before anything was pushed. */
    method AddOption(o: Opt)
      requires Valid() && lvl == 1
      requires o.v.Some? ==> o.v.value in vars
      requires o.hasChild ==> o.v.None?
      modifies this`defs, this`alias, this`slots
      ensures Valid() && defs == [o] + old(defs)
      ensures alias == [o.v.Some? && exists i :: 0 <= i < |old(defs)| && old(defs)[i].v == o.v] + old(alias)
    {
      var isAlias := false;
      var s: seq<Slot> := [];
      if !o.hasChild {
        isAlias := FindAlias(o);
        if !isAlias {
          var d := Current(o);
          s := [Slot(lvl, d), Slot(0, d)];
        }
      }
      AliasesGrow(o, isAlias, defs, alias);
      defs, alias, slots := [o] + defs, [isAlias] + alias, [s] + slots;
    }

    /** `m_config_push`: update the current slot of every saveable option and stack a new one on it. */
    method Push()
      requires Valid()
      modifies this`lvl, this`slots, this`saved
      ensures Valid() && saved == old(saved) + [vars] && lvl == old(lvl) + 1
    {
      lvl := lvl + 1;
      for i := 0 to |defs|
        invariant |slots| == |defs| && lvl == old(lvl) + 1 && saved == old(saved)
        invariant forall k :: i <= k < |defs| ==> slots[k] == old(slots)[k]
        invariant forall k :: 0 <= k < i && Saves(defs[k], alias[k]) ==>
          LevelsOk(slots[k], lvl) && SlotsHold(defs[k], slots[k], saved + [vars])
      {
        if Saves(defs[i], alias[i]) {
          // update the current status, then stack a copy of it
          var cur := Current(defs[i]);
          var top := if cur.Some? then slots[i][0].(data := cur) else slots[i][0];
          PushedSlots(defs[i], slots[i], saved, vars, old(lvl), cur);
          slots := slots[i := [Slot(lvl, top.data), top] + slots[i][1..]];
        }
      }
      saved := saved + [vars];
    }

    /** `m_config_pop`: drop the slots of the current level and put the saved values back. */
    method Pop()
      requires Valid() && lvl > 1
      modifies this`lvl, this`slots, this`vars, this`saved
      ensures Valid() && saved == old(saved)[..|old(saved)| - 1] && lvl == old(lvl) - 1
      ensures vars == Restored(old(vars), old(saved)[|old(saved)| - 1], Saved())
      ensures forall v :: v in old(vars) ==> v in vars && v in old(saved)[|old(saved)| - 1]
      ensures forall v :: v in vars && v in Saved() ==> vars[v] == old(saved)[|old(saved)| - 1][v]
      ensures forall v :: v in vars && v !in Saved() ==> v in old(vars) && vars[v] == old(vars)[v]
    {
      hide PopDone, SavedVars, LevelsOk, SlotsHold, AliasesOk, Restored, Saves;
      ghost var slots0, vars0 := slots, vars;
      PopStart(defs, alias, slots, vars, saved);
      for i := 0 to |defs|
        invariant |slots| == |defs| && lvl == old(lvl) && saved == old(saved)
        invariant PopDone(defs, alias, slots0, slots, vars0, vars, saved, lvl, i)
      {
        if Saves(defs[i], alias[i]) {
          PopTurn(defs, alias, slots0, slots, vars0, vars, saved, lvl, i);
          PopOption(i);
        } else {
          PopSkip(defs, alias, slots0, slots, vars0, vars, saved, lvl, i);
        }
      }
      PopEnd(defs, alias, slots0, slots, vars0, vars, saved, lvl);
      RestoredAt(vars0, saved[|saved| - 1], Saved());
      lvl := lvl - 1;
      saved := saved[..|saved| - 1];
    }

    /** The body of the pop loop for a saveable option. */
    method PopOption(i: nat)
      requires i < |defs| == |slots| && lvl > 0
      requires LevelsOk(slots[i], lvl)
      requires defs[i].hasCopy && defs[i].v.Some? ==> slots[i][1].data.Some?
      modifies this`slots, this`vars
      ensures slots == old(slots)[i := old(slots)[i][1..]]
      ensures vars == if defs[i].hasCopy && defs[i].v.Some?
        then old(vars)[defs[i].v.value := old(slots)[i][1].data.value] else old(vars)
    {
      var pop := 0;
      while slots[i][0].lvl >= lvl
        invariant 0 <= pop <= 1 && slots == old(slots)[i := old(slots)[i][pop..]] && vars == old(vars)
        invariant |slots| == |defs|
        decreases 1 - pop
      {
        slots := slots[i := slots[i][1..]];
        pop := pop + 1;
        assert slots[i] == old(slots)[i][pop..];
      }
      if pop > 0 {
        // we removed some context: set the previous value
        if defs[i].hasCopy && defs[i].v.Some? {
          vars := vars[defs[i].v.value := slots[i][0].data.value];
        }
      }
    }

    /** `m_config_get_co`: the first option of that name. */
    method Find(name: string) returns (i: nat)
      ensures i <= |defs| && (i < |defs| ==> defs[i].name == name)
      ensures forall k :: 0 <= k < i ==> defs[k].name != name
    {
      i := 0;
      while i < |defs|
        invariant i <= |defs| && forall k :: 0 <= k < i ==> defs[k].name != name
      {
        if defs[i].name == name {
          return;
        }
        i := i + 1;
      }
    }

    /** `m_config_set_option`: write the parsed value to the variable of the first option of that name. */
    method SetOption(name: string, param: string) returns (r: int)
      requires Valid()
      modifies this`vars
      ensures Valid() && vars == SetTo(defs, parse, old(vars), name, param)
      ensures (forall k :: 0 <= k < |defs| ==> defs[k].name != name) ==> r == -1 && vars == old(vars)
      ensures forall i ::
        0 <= i < |defs| && defs[i].name == name && (forall k :: 0 <= k < i ==> defs[k].name != name) ==>
        match parse(name, param)
        case None => r == -3 && vars == old(vars)
        case Some(x) =>
          r == 1 && vars == if defs[i].v.Some? && !defs[i].hasChild then old(vars)[defs[i].v.value := x] else old(vars)
    {
      var i := Find(name);
      FirstNamedIs(defs, name, i);
      if i == |defs| {
        return M_OPT_UNKNOWN;
      }
      var x := parse(name, param);
      if x.None? {
        return M_OPT_INVALID;
      }
      if defs[i].v.Some? && !defs[i].hasChild {
        vars := vars[defs[i].v.value := x.value];
      }
      r := 1;
    }
  }

  // ---------- setting options ----------

  /** The first option of that name, or |defs|. */
  ghost function FirstNamed(defs: seq<Opt>, name: string): nat {
    if defs == [] || defs[0].name == name then 0 else 1 + FirstNamed(defs[1..], name)
  }

  lemma {:induction false} FirstNamedIs(defs: seq<Opt>, name: string, i: nat)
    requires i <= |defs| && (i < |defs| ==> defs[i].name == name)
    requires forall k :: 0 <= k < i ==> defs[k].name != name
    ensures FirstNamed(defs, name) == i
  {
    if i > 0 {
      FirstNamedIs(defs[1..], name, i - 1);
    }
  }

  /** The variables after setting an option; unknown names and bad values change nothing. */
  ghost function SetTo(defs: seq<Opt>, parse: (string, string) -> Option<Value>, vars: Vars, name: string,
                       param: string): Vars {
    var i := FirstNamed(defs, name);
    if i < |defs| && parse(name, param).Some? && defs[i].v.Some? && !defs[i].hasChild
    then vars[defs[i].v.value := parse(name, param).value] else vars
  }

  /** Setting an option writes the value that its parameter stands for to the variable of the first option of that
      name, and to no other. */
  lemma SetToIs(defs: seq<Opt>, parse: (string, string) -> Option<Value>, vars: Vars, name: string, param: string,
                i: nat)
    requires i < |defs| && defs[i].name == name && forall k :: 0 <= k < i ==> defs[k].name != name
    ensures var after := SetTo(defs, parse, vars, name, param);
      if defs[i].v.Some? && !defs[i].hasChild && parse(name, param).Some?
      then after == vars[defs[i].v.value := parse(name, param).value] else after == vars
  {
    FirstNamedIs(defs, name, i);
  }

  /** Setting this option changes `v`. */
  ghost predicate Sets(defs: seq<Opt>, parse: (string, string) -> Option<Value>, name: string, param: string, v: Var) {
    var i := FirstNamed(defs, name);
    i < |defs| && defs[i].v == Some(v) && !defs[i].hasChild && parse(name, param).Some?
  }

  /** The saved variables: those whose option registered first is not a group of options, neither global nor marked as
      not to be saved, and of a type that can be copied. */
  lemma SavedIs(defs: seq<Opt>, alias: seq<bool>, v: Var)
    requires AliasesOk(defs, alias)
    ensures v in SavedVars(defs, alias) <==>
      exists i :: 0 <= i < |defs| && defs[i].v == Some(v) && (forall j :: i < j < |defs| ==> defs[j].v != Some(v))
        && !defs[i].hasChild && !defs[i].global && !defs[i].noSave && defs[i].hasCopy
  {
    if v in SavedVars(defs, alias) {
      var i :| 0 <= i < |defs| && Saves(defs[i], alias[i]) && defs[i].hasCopy && defs[i].v == Some(v);
      assert forall j :: i < j < |defs| ==> defs[j].v != defs[i].v;
    }
  }

  // ---------- slot stacks ----------

  lemma AliasesGrow(o: Opt, isAlias: bool, defs: seq<Opt>, alias: seq<bool>)
    requires AliasesOk(defs, alias) && (o.hasChild ==> o.v.None?)
    requires isAlias <==> o.v.Some? && exists i :: 0 <= i < |defs| && defs[i].v == o.v
    ensures AliasesOk([o] + defs, [isAlias] + alias)
  {
    var d, a := [o] + defs, [isAlias] + alias;
    forall i | 0 <= i < |d| && a[i] ensures exists j :: i < j < |d| && d[j].v == d[i].v {
      if i == 0 {
        var k :| 0 <= k < |defs| && defs[k].v == o.v;
        assert d[k + 1].v == d[0].v;
      } else {
        var k :| i - 1 < k < |defs| && defs[k].v == defs[i - 1].v;
        assert d[k + 1].v == d[i].v;
      }
    }
    forall i, j | 0 <= i < j < |d| && d[i].v.Some? && d[i].v == d[j].v && !d[i].hasChild ensures a[i] {
      if i == 0 {
        assert defs[j - 1].v == o.v;
      } else {
        assert defs[i - 1].v == defs[j - 1].v;
      }
    }
  }

  lemma PushedSlots(o: Opt, slots: seq<Slot>, saved: seq<Vars>, vars: Vars, lvl: nat, cur: Option<Value>)
    requires LevelsOk(slots, lvl) && SlotsHold(o, slots, saved)
    requires cur == if o.hasCopy && o.v.Some? && o.v.value in vars then Some(vars[o.v.value]) else None
    ensures var top := if cur.Some? then slots[0].(data := cur) else slots[0];
      var stacked := [Slot(lvl + 1, top.data), top] + slots[1..];
      LevelsOk(stacked, lvl + 1) && SlotsHold(o, stacked, saved + [vars])
  {
    var top := if cur.Some? then slots[0].(data := cur) else slots[0];
    var stacked := [Slot(lvl + 1, top.data), top] + slots[1..];
    assert forall j :: 2 <= j < |stacked| ==> stacked[j] == slots[j - 1];
    var more := saved + [vars];
    forall k | o.hasCopy && o.v.Some? && 0 <= k < |more| && o.v.value in more[k]
      ensures stacked[|more| - k].data == Some(more[k][o.v.value])
    {
      if k < |saved| {
        assert more[k] == saved[k];
      }
    }
  }

  lemma PoppedSlots(o: Opt, slots: seq<Slot>, saved: seq<Vars>, lvl: nat)
    requires LevelsOk(slots, lvl) && SlotsHold(o, slots, saved) && |saved| > 0 && lvl > 0
    ensures LevelsOk(slots[1..], lvl - 1) && SlotsHold(o, slots[1..], saved[..|saved| - 1])
    ensures o.hasCopy && o.v.Some? && o.v.value in saved[|saved| - 1] ==>
      slots[1].data == Some(saved[|saved| - 1][o.v.value])
  {
    var fewer := saved[..|saved| - 1];
    forall k | o.hasCopy && o.v.Some? && 0 <= k < |fewer| && o.v.value in fewer[k]
      ensures slots[1..][|fewer| - k].data == Some(fewer[k][o.v.value])
    {
      assert fewer[k] == saved[k];
    }
  }

  lemma RestoredStep(now: Vars, last: Vars, s: set<Var>, v: Var)
    requires v in now && v in last
    ensures Restored(now, last, s)[v := last[v]] == Restored(now, last, s + {v})
    ensures Restored(now, last, s).Keys == now.Keys
  {}

  lemma RestoredAt(now: Vars, last: Vars, s: set<Var>)
    requires last.Keys == now.Keys
    ensures Restored(now, last, s).Keys == now.Keys
    ensures forall v :: v in now ==> v in last && Restored(now, last, s)[v] == if v in s then last[v] else now[v]
  {}

  /** The pop loop has handled the first `i` options. */
  ghost predicate PopDone(defs: seq<Opt>, alias: seq<bool>, slots0: seq<seq<Slot>>, slots: seq<seq<Slot>>,
                          vars0: Vars, vars: Vars, saved: seq<Vars>, lvl: nat, i: nat) {
    var ok :=
      && i <= |defs| == |alias| == |slots| == |slots0| && saved != [] && lvl > 0
      && (forall k :: i <= k < |defs| ==> slots[k] == slots0[k])
      && (forall k :: 0 <= k < i && Saves(defs[k], alias[k]) ==>
            LevelsOk(slots[k], lvl - 1) && SlotsHold(defs[k], slots[k], saved[..|saved| - 1]))
      && vars == Restored(vars0, saved[|saved| - 1], SavedVars(defs[..i], alias[..i]))
      && (forall k :: 0 <= k < |defs| && defs[k].v.Some? ==> defs[k].v.value in vars0)
      && (forall k :: 0 <= k < |saved| ==> saved[k].Keys == vars0.Keys)
      && (forall k :: 0 <= k < |defs| && Saves(defs[k], alias[k]) ==>
            LevelsOk(slots0[k], lvl) && SlotsHold(defs[k], slots0[k], saved));
    ok
  }

  lemma PopStart(defs: seq<Opt>, alias: seq<bool>, slots: seq<seq<Slot>>, vars: Vars, saved: seq<Vars>)
    requires |defs| == |alias| == |slots| && saved != []
    requires forall k :: 0 <= k < |defs| && defs[k].v.Some? ==> defs[k].v.value in vars
    requires forall k :: 0 <= k < |saved| ==> saved[k].Keys == vars.Keys
    requires forall k :: 0 <= k < |defs| && Saves(defs[k], alias[k]) ==>
      LevelsOk(slots[k], |saved| + 1) && SlotsHold(defs[k], slots[k], saved)
    ensures PopDone(defs, alias, slots, slots, vars, vars, saved, |saved| + 1, 0)
  {
    assert SavedVars(defs[..0], alias[..0]) == {};
  }

  lemma PopEnd(defs: seq<Opt>, alias: seq<bool>, slots0: seq<seq<Slot>>, slots: seq<seq<Slot>>,
               vars0: Vars, vars: Vars, saved: seq<Vars>, lvl: nat)
    requires PopDone(defs, alias, slots0, slots, vars0, vars, saved, lvl, |defs|)
    ensures |alias| == |defs| && saved != [] && lvl > 0
    ensures vars == Restored(vars0, saved[|saved| - 1], SavedVars(defs, alias)) && vars.Keys == vars0.Keys
    ensures |slots| == |defs|
    ensures forall k :: 0 <= k < |defs| && Saves(defs[k], alias[k]) ==>
      LevelsOk(slots[k], lvl - 1) && SlotsHold(defs[k], slots[k], saved[..|saved| - 1])
  {
    hide SavedVars, LevelsOk, SlotsHold;
    assert defs[..|defs|] == defs && alias[..|defs|] == alias;
  }

  lemma PopTurn(defs: seq<Opt>, alias: seq<bool>, slots0: seq<seq<Slot>>, slots: seq<seq<Slot>>,
                vars0: Vars, vars: Vars, saved: seq<Vars>, lvl: nat, i: nat)
    requires PopDone(defs, alias, slots0, slots, vars0, vars, saved, lvl, i) && i < |defs| == |alias|
    requires |slots| == |defs|
    requires Saves(defs[i], alias[i])
    ensures LevelsOk(slots[i], lvl) && |slots[i]| >= 2
    ensures defs[i].hasCopy && defs[i].v.Some? ==> slots[i][1].data.Some?
    ensures PopDone(defs, alias, slots0, slots[i := slots[i][1..]], vars0,
                    if defs[i].hasCopy && defs[i].v.Some? then vars[defs[i].v.value := slots[i][1].data.value]
                    else vars,
                    saved, lvl, i + 1)
  {
    PoppedSlots(defs[i], slots[i], saved, lvl);
    SavedVarsStep(defs, alias, i);
    var last := saved[|saved| - 1];
    var s := SavedVars(defs[..i], alias[..i]);
    assert LevelsOk(slots[i], lvl);
    hide SavedVars, LevelsOk, SlotsHold;
    if defs[i].hasCopy && defs[i].v.Some? {
      assert last.Keys == vars0.Keys;
      RestoredStep(vars0, last, s, defs[i].v.value);
    } else {
      assert s + {} == s;
    }
  }

  lemma PopSkip(defs: seq<Opt>, alias: seq<bool>, slots0: seq<seq<Slot>>, slots: seq<seq<Slot>>,
                vars0: Vars, vars: Vars, saved: seq<Vars>, lvl: nat, i: nat)
    requires PopDone(defs, alias, slots0, slots, vars0, vars, saved, lvl, i) && i < |defs| == |alias|
    requires |slots| == |defs|
    requires !Saves(defs[i], alias[i])
    ensures PopDone(defs, alias, slots0, slots, vars0, vars, saved, lvl, i + 1)
  {
    SavedVarsStep(defs, alias, i);
    hide SavedVars, LevelsOk, SlotsHold;
    var s := SavedVars(defs[..i], alias[..i]);
    assert s + {} == s;
  }

  lemma SavedVarsStep(defs: seq<Opt>, alias: seq<bool>, i: nat)
    requires i < |defs| == |alias|
    ensures SavedVars(defs[..i + 1], alias[..i + 1]) == SavedVars(defs[..i], alias[..i]) +
      if Saves(defs[i], alias[i]) && defs[i].hasCopy && defs[i].v.Some? then {defs[i].v.value} else {}
  {
    var d, a := defs[..i + 1], alias[..i + 1];
    var d', a' := defs[..i], alias[..i];
    assert forall k :: 0 <= k < i ==> d[k] == d'[k] && a[k] == a'[k];
    assert d[i] == defs[i] && a[i] == alias[i];
    forall v | v in SavedVars(d, a)
      ensures v in SavedVars(d', a') || (Saves(d[i], a[i]) && d[i].hasCopy && d[i].v == Some(v))
    {
      var k :| 0 <= k < |d| && Saves(d[k], a[k]) && d[k].hasCopy && d[k].v.Some? && d[k].v.value == v;
      if k < i {
        assert Saves(d'[k], a'[k]);
      }
    }
    forall v | v in SavedVars(d', a') ensures v in SavedVars(d, a) {
      var k :| 0 <= k < |d'| && Saves(d'[k], a'[k]) && d'[k].hasCopy && d'[k].v.Some? && d'[k].v.value == v;
      assert Saves(d[k], a[k]) && d[k].v.value == v;
    }
  }

  // ---------- well-bracketed runs ----------

  /** A run of the option store: options being set, and push ... pop around inner runs. */
  datatype Run = Done | Set(name: string, param: string, rest: Run) | Bracket(inner: Run, rest: Run)

  /** What a run makes of the variables. */
  ghost function Exec(defs: seq<Opt>, parse: (string, string) -> Option<Value>, saved: set<Var>, vars: Vars,
                      run: Run): Vars
    decreases run
  {
    match run
    case Done => vars
    case Set(name, param, rest) => Exec(defs, parse, saved, SetTo(defs, parse, vars, name, param), rest)
    case Bracket(inner, rest) =>
      Exec(defs, parse, saved, Restored(Exec(defs, parse, saved, vars, inner), vars, saved), rest)
  }

  /** The run without its brackets. */
  ghost function TopLevel(run: Run): Run {
    match run
    case Done => Done
    case Set(name, param, rest) => Set(name, param, TopLevel(rest))
    case Bracket(_, rest) => TopLevel(rest)
  }

  ghost predicate SameOn(s: set<Var>, a: Vars, b: Vars) {
    forall v :: v in s ==> v in a && v in b && a[v] == b[v]
  }

  lemma SetSameOn(defs: seq<Opt>, parse: (string, string) -> Option<Value>, s: set<Var>, a: Vars, b: Vars,
                  name: string, param: string)
    requires SameOn(s, a, b)
    ensures SameOn(s, SetTo(defs, parse, a, name, param), SetTo(defs, parse, b, name, param))
  {}

  lemma {:induction false} ExecKeeps(defs: seq<Opt>, parse: (string, string) -> Option<Value>, s: set<Var>,
                                     vars: Vars, run: Run)
    ensures vars.Keys <= Exec(defs, parse, s, vars, run).Keys
    decreases run
  {
    match run
    case Done =>
    case Set(name, param, rest) => ExecKeeps(defs, parse, s, SetTo(defs, parse, vars, name, param), rest);
    case Bracket(inner, rest) =>
      ExecKeeps(defs, parse, s, vars, inner);
      ExecKeeps(defs, parse, s, Restored(Exec(defs, parse, s, vars, inner), vars, s), rest);
  }

  lemma {:induction false} ExecSameOn(defs: seq<Opt>, parse: (string, string) -> Option<Value>, s: set<Var>, a: Vars,
                                      b: Vars, run: Run)
    requires SameOn(s, a, b)
    ensures SameOn(s, Exec(defs, parse, s, a, run), Exec(defs, parse, s, b, run))
    decreases run
  {
    match run
    case Done =>
    case Set(name, param, rest) =>
      SetSameOn(defs, parse, s, a, b, name, param);
      ExecSameOn(defs, parse, s, SetTo(defs, parse, a, name, param), SetTo(defs, parse, b, name, param), rest);
    case Bracket(inner, rest) =>
      ExecKeeps(defs, parse, s, a, inner);
      ExecKeeps(defs, parse, s, b, inner);
      ExecSameOn(defs, parse, s, Restored(Exec(defs, parse, s, a, inner), a, s),
                 Restored(Exec(defs, parse, s, b, inner), b, s), rest);
  }

  /** Whatever is set between a push and its pop, every saved variable ends as if the bracket were not there. */
  lemma {:induction false} NothingLeaks(defs: seq<Opt>, parse: (string, string) -> Option<Value>, s: set<Var>,
                                        vars: Vars, run: Run)
    requires s <= vars.Keys
    ensures SameOn(s, Exec(defs, parse, s, vars, run), Exec(defs, parse, s, vars, TopLevel(run)))
    decreases run
  {
    match run
    case Done =>
    case Set(name, param, rest) => NothingLeaks(defs, parse, s, SetTo(defs, parse, vars, name, param), rest);
    case Bracket(inner, rest) =>
      ExecKeeps(defs, parse, s, vars, inner);
      var after := Restored(Exec(defs, parse, s, vars, inner), vars, s);
      assert SameOn(s, after, vars);
      NothingLeaks(defs, parse, s, after, rest);
      ExecSameOn(defs, parse, s, after, vars, TopLevel(rest));
  }

  /** Option `i` saves `v`, no other does, and no option registered earlier uses `v`. */
  ghost predicate SoleSaver(defs: seq<Opt>, alias: seq<bool>, i: int, v: Var)
    requires |alias| == |defs|
  {
    && 0 <= i < |defs| && Saves(defs[i], alias[i]) && defs[i].v == Some(v)
    && (forall j :: 0 <= j < |defs| && j != i && Saves(defs[j], alias[j]) ==> defs[j].v != Some(v))
    && (forall j :: i < j < |defs| ==> defs[j].v != Some(v))
  }

  /** A saved variable has exactly one option that saves it, the one registered first. */
  lemma OneSaver(defs: seq<Opt>, alias: seq<bool>, v: Var)
    requires AliasesOk(defs, alias) && v in SavedVars(defs, alias)
    ensures exists i :: SoleSaver(defs, alias, i, v)
  {
    var i :| 0 <= i < |defs| && Saves(defs[i], alias[i]) && defs[i].hasCopy && defs[i].v.Some? && defs[i].v.value == v;
    assert SoleSaver(defs, alias, i, v);
  }

  /** Carry out a run with pushes and pops. */
  method Perform(c: MConfig, run: Run)
    requires c.Valid()
    modifies c`vars, c`lvl, c`slots, c`saved
    ensures c.Valid() && c.lvl == old(c.lvl) && c.saved == old(c.saved)
    ensures c.vars == Exec(c.defs, c.parse, c.Saved(), old(c.vars), run)
    decreases run
  {
    match run
    case Done =>
    case Set(name, param, rest) =>
      var _ := c.SetOption(name, param);
      Perform(c, rest);
    case Bracket(inner, rest) =>
      c.Push();
      Perform(c, inner);
      c.Pop();
      Perform(c, rest);
  }
}
