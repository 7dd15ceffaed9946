/**
 * `LoadingOverlay` (loading-overlay.js): a reference count of running
 * operations behind one overlay element. The overlay element is created on
 * the first `show`; it carries the `active` class exactly while some
 * operation is running.
 */
module Overlay {
  import opened Wrappers

  /** The closure's state: whether the element exists, the counter, the `active` class and the caption. */
  datatype State = State(created: bool, activeOperations: nat, active: bool, text: string)

  datatype Op = Show(text: string) | Hide | ForceHide

  /** Before any call: no element, nothing running. */
  function Initial(): State
  {
    State(false, 0, false, "")
  }

  /** The effect of one call of `show`, `hide` or `forceHide`. */
  function Apply(s: State, op: Op): State
  {
    match op
    case Show(text) => State(true, s.activeOperations + 1, true, text)
    case Hide =>
      if !s.created then s
      else
        var n := if s.activeOperations == 0 then 0 else s.activeOperations - 1;
        s.(activeOperations := n, active := if n == 0 then false else s.active)
    case ForceHide =>
      if !s.created then s else s.(activeOperations := 0, active := false)
  }

  /** The state after the calls `ops`, in order. */
  function Run(s: State, ops: seq<Op>): State
  {
    if ops == [] then s else Apply(Run(s, ops[..|ops| - 1]), ops[|ops| - 1])
  }

  /** The overlay is shown exactly while an operation is running, and nothing runs before the element exists. */
  predicate Consistent(s: State)
  {
    (s.active <==> s.activeOperations > 0) && (!s.created ==> s.activeOperations == 0)
  }

  /** Every call keeps the overlay consistent with its counter. */
  lemma ApplyConsistent(s: State, op: Op)
    requires Consistent(s)
    ensures Consistent(Apply(s, op))
  {
  }

  /** From the initial state, any sequence of calls leaves the overlay active exactly when the counter is positive. */
  lemma {:induction false} RunConsistent(ops: seq<Op>)
    ensures Consistent(Run(Initial(), ops))
    ensures Run(Initial(), ops).active <==> Run(Initial(), ops).activeOperations > 0
  {
    if ops != [] {
      RunConsistent(ops[..|ops| - 1]);
      ApplyConsistent(Run(Initial(), ops[..|ops| - 1]), ops[|ops| - 1]);
    }
  }

  /** A `show` followed by a `hide` leaves a consistent state as it was, apart from the caption. */
  lemma ShowHideBalanced(s: State, text: string)
    requires Consistent(s)
    ensures var t := Apply(Apply(s, Show(text)), Hide);
      t.activeOperations == s.activeOperations && t.active == s.active && t.created
  {
  }

  /** `forceHide` clears every running operation once the element exists. */
  lemma ForceHideClears(s: State)
    requires s.created
    ensures Apply(s, ForceHide).activeOperations == 0 && !Apply(s, ForceHide).active
  {
  }

  function Shows(text: string, n: nat): seq<Op>
  {
    if n == 0 then [] else Shows(text, n - 1) + [Show(text)]
  }

  function Hides(n: nat): seq<Op>
  {
    if n == 0 then [] else Hides(n - 1) + [Hide]
  }

  lemma {:induction false} RunAppend(s: State, a: seq<Op>, b: seq<Op>)
    ensures Run(s, a + b) == Run(Run(s, a), b)
  {
    if b != [] {
      assert (a + b)[..|a + b| - 1] == a + b[..|b| - 1];
      RunAppend(s, a, b[..|b| - 1]);
    } else {
      assert a + b == a;
    }
  }

  lemma {:induction false} ShowsRun(s: State, text: string, n: nat)
    ensures Run(s, Shows(text, n)).activeOperations == s.activeOperations + n
    ensures n > 0 ==> Run(s, Shows(text, n)).created && Run(s, Shows(text, n)).active
    ensures n == 0 ==> Run(s, Shows(text, n)) == s
  {
    if n > 0 {
      var ops := Shows(text, n);
      assert ops[..|ops| - 1] == Shows(text, n - 1);
      ShowsRun(s, text, n - 1);
    }
  }

  lemma {:induction false} HidesRun(s: State, n: nat)
    requires s.created && s.activeOperations >= n && (s.active <==> s.activeOperations > 0)
    ensures Run(s, Hides(n)).activeOperations == s.activeOperations - n
    ensures Run(s, Hides(n)).created
    ensures Run(s, Hides(n)).active <==> Run(s, Hides(n)).activeOperations > 0
  {
    if n > 0 {
      var ops := Hides(n);
      assert ops[..|ops| - 1] == Hides(n - 1);
      HidesRun(s, n - 1);
    }
  }

  /** `n` shows followed by `n` hides bring a consistent overlay back to its counter. */
  lemma NestedRun(s: State, text: string, n: nat)
    requires Consistent(s)
    ensures var t := Run(s, Shows(text, n) + Hides(n));
      t.activeOperations == s.activeOperations && t.active == s.active
  {
    RunAppend(s, Shows(text, n), Hides(n));
    ShowsRun(s, text, n);
    if n > 0 {
      HidesRun(Run(s, Shows(text, n)), n);
    } else {
      assert Hides(0) == [];
    }
  }

  /** The overlay object of loading-overlay.js with its closure variables as fields. */
  class LoadingOverlay {
    var created: bool
    var activeOperations: nat
    var active: bool
    var text: string

    function Current(): State
      reads this
    {
      State(created, activeOperations, active, text)
    }

    constructor ()
      ensures Current() == Initial()
    {
      created, activeOperations, active, text := false, 0, false, "";
    }

    /** `init`: create the element once, with its default caption. */
    method Init()
      modifies this
      ensures created && activeOperations == old(activeOperations) && active == old(active)
      ensures old(created) ==> text == old(text)
    {
      if created {
        return;
      }
      created := true;
      text := "Loading...";
    }

    method Show(caption: string)
      modifies this
      ensures Current() == Apply(old(Current()), Op.Show(caption))
    {
      if !created {
        Init();
      }
      activeOperations := activeOperations + 1;
      text := caption;
      active := true;
    }

    method Hide()
      modifies this
      ensures Current() == Apply(old(Current()), Op.Hide)
    {
      if !created {
        return;
      }
      activeOperations := if activeOperations == 0 then 0 else activeOperations - 1;
      if activeOperations == 0 {
        active := false;
      }
    }

    method ForceHide()
      modifies this
      ensures Current() == Apply(old(Current()), Op.ForceHide)
    {
      if !created {
        return;
      }
      activeOperations := 0;
      active := false;
    }

    /**
     * `wrap(fn, loadingText)`: `outcome` is what awaiting `fn()` produced, a
     * value or a thrown error; either way the overlay is hidden again and the
     * outcome is passed on.
     */
    method Wrap<T, E>(outcome: Result<T, E>, loadingText: string) returns (r: Result<T, E>)
      requires Consistent(Current())
      modifies this
      ensures r == outcome
      ensures Current() == Apply(Apply(old(Current()), Op.Show(loadingText)), Op.Hide)
      ensures activeOperations == old(activeOperations) && active == old(active) && Consistent(Current())
    {
      ghost var before := Current();
      Show(loadingText);
      r := outcome;
      Hide();
      ShowHideBalanced(before, loadingText);
      ApplyConsistent(Apply(before, Op.Show(loadingText)), Op.Hide);
      ApplyConsistent(before, Op.Show(loadingText));
    }
  }
}
