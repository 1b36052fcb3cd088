/**
 * The Tower-of-Hanoi state machine of the actor in src/lib.rs: three towers
 * of discs (the last element of each tower is its top), the initial layout,
 * the legality check of a move and the move itself.
 *
 * `Towers` is the value view of the state record; `IsLegal` and `Move` are
 * pure functions of it. `State` is the record the actor mutates in place:
 * its `MoveDisc` pops and pushes its own fields and is proved against `Move`.
 */
module Hanoi {

  /** Rust's `u8`: disc ranks, tower ids and parameter bytes. */
  newtype u8 = x: int | 0 <= x < 256

  /** The exit codes the actor aborts with (a Rust panic has none of its own). */
  datatype ExitCode = UsrIllegalArgument | UsrForbidden | UsrIllegalState | UsrUnhandledMessage | Panic

  /**
   * Every way an invocation of the actor aborts, one constructor per abort
   * site. The actor layer's aborts (caller check, parameter bytes, load,
   * dispatch) are declared here too, so that one taxonomy, and one `Result`
   * and `Outcome` over it, serves both this module and the actor around it.
   */
  datatype Error =
    | InvalidFrom(from: u8)
    | InvalidTo(to: u8)
    | IllegalMove(from: u8, to: u8)
    | ForbiddenCaller(caller: nat)
    | ParamsTooShort(length: nat)
    | NoState
    | UnhandledMethod(number: nat)
  {
    /** The exit code each abort site reports. */
    function Code(): (c: ExitCode)
      ensures c == UsrIllegalArgument <==> InvalidFrom? || InvalidTo?
      ensures c == UsrForbidden <==> IllegalMove? || ForbiddenCaller?
      ensures c == UsrIllegalState <==> NoState?
      ensures c == UsrUnhandledMessage <==> UnhandledMethod?
      ensures c == Panic <==> ParamsTooShort?
    {
      match this
      case InvalidFrom(_) => UsrIllegalArgument
      case InvalidTo(_) => UsrIllegalArgument
      case IllegalMove(_, _) => UsrForbidden
      case ForbiddenCaller(_) => UsrForbidden
      case ParamsTooShort(_) => Panic
      case NoState => UsrIllegalState
      case UnhandledMethod(_) => UsrUnhandledMessage
    }
  }

  datatype Result<T> = Ok(value: T) | Err(error: Error)

  datatype Outcome = Pass | Fail(error: Error)

  predicate IsTowerId(id: u8) {
    1 <= id <= 3
  }

  /** The top disc of a tower. */
  function Top(s: seq<u8>): u8
    requires s != []
  {
    s[|s| - 1]
  }

  /** The tower other than `a` and `b`. */
  function Third(a: u8, b: u8): (c: u8)
    requires IsTowerId(a) && IsTowerId(b) && a != b
    ensures IsTowerId(c) && c != a && c != b
  {
    6 - a - b
  }

  /** Discs decrease strictly from the bottom (index 0) to the top. */
  predicate StrictlyDecreasing(s: seq<u8>) {
    forall i, j :: 0 <= i < j < |s| ==> s[i] > s[j]
  }

  /** The tower `[n, n-1, ..., 1]`, bottom first. */
  function Countdown(n: u8): seq<u8> {
    if n == 0 then [] else [n] + Countdown(n - 1)
  }

  /** The value of the state record: three towers, last element = top. */
  datatype Towers = Towers(tower1: seq<u8>, tower2: seq<u8>, tower3: seq<u8>)
  {
    function Get(id: u8): seq<u8>
      requires IsTowerId(id)
    {
      if id == 1 then tower1 else if id == 2 then tower2 else tower3
    }

    /** The same towers with tower `id` replaced by `s`. */
    function With(id: u8, s: seq<u8>): (r: Towers)
      requires IsTowerId(id)
      ensures r.Get(id) == s
      ensures forall other | IsTowerId(other) && other != id :: r.Get(other) == Get(other)
    {
      if id == 1 then this.(tower1 := s)
      else if id == 2 then this.(tower2 := s)
      else this.(tower3 := s)
    }

    /** All discs, tower by tower. */
    function All(): seq<u8> {
      tower1 + tower2 + tower3
    }

    /** Invariant I2: every tower is strictly decreasing from bottom to top. */
    predicate Ordered() {
      StrictlyDecreasing(tower1) && StrictlyDecreasing(tower2) && StrictlyDecreasing(tower3)
    }

    /** Invariant I1: each disc `1..=n` is on exactly one tower, exactly once, and no other disc is. */
    predicate HoldsEachOnce(n: u8) {
      forall d: u8 :: multiset(All())[d] == if 1 <= d <= n then 1 else 0
    }

    predicate Valid(n: u8) {
      Ordered() && HoldsEachOnce(n)
    }

    /**
     * `is_legal`: an invalid source id aborts; an empty source is never
     * legal (checked before `to` is looked at, so a bad `to` is then not
     * reported); a bad `to` aborts; an empty target always accepts; otherwise
     * the source's top must be strictly smaller than the target's top.
     */
    function IsLegal(from: u8, to: u8): (r: Result<bool>)
      ensures !IsTowerId(from) ==> r == Err(InvalidFrom(from))
      ensures IsTowerId(from) && Get(from) == [] ==> r == Ok(false)
      ensures IsTowerId(from) && Get(from) != [] && !IsTowerId(to) ==> r == Err(InvalidTo(to))
      ensures IsTowerId(from) && IsTowerId(to) && Get(from) != [] && Get(to) == [] ==> r == Ok(true)
      ensures IsTowerId(from) && IsTowerId(to) && Get(from) != [] && Get(to) != [] ==>
                r == Ok(Top(Get(from)) < Top(Get(to)))
      ensures r == Ok(true) ==> IsTowerId(from) && IsTowerId(to) && from != to && Get(from) != []
    {
      if !IsTowerId(from) then Err(InvalidFrom(from))
      else
        var source := Get(from);
        if |source| == 0 then Ok(false)
        else
          var topDisc := source[|source| - 1];
          if !IsTowerId(to) then Err(InvalidTo(to))
          else
            var target := Get(to);
            if |target| == 0 then Ok(true)
            else Ok(topDisc < target[|target| - 1])
    }

    /**
     * `move_disc` on the value: the legality check's abort is passed on, an
     * illegal pair is refused as forbidden, and a legal pair moves the top
     * disc of `from` onto `to`, leaving the third tower alone.
     */
    function Move(from: u8, to: u8): (r: Result<Towers>)
      ensures r.Ok? <==> IsLegal(from, to) == Ok(true)
      ensures IsLegal(from, to).Err? ==> r == Err(IsLegal(from, to).error)
      ensures IsLegal(from, to) == Ok(false) ==> r == Err(IllegalMove(from, to))
      ensures r.Ok? ==>
                && r.value.Get(from) == Get(from)[..|Get(from)| - 1]
                && r.value.Get(to) == Get(to) + [Top(Get(from))]
                && r.value.Get(Third(from, to)) == Get(Third(from, to))
    {
      match IsLegal(from, to)
      case Err(e) => Err(e)
      case Ok(legal) =>
        if !legal then Err(IllegalMove(from, to))
        else
          var source := Get(from);
          var disc := source[|source| - 1];
          Ok(With(from, source[..|source| - 1]).With(to, Get(to) + [disc]))
    }
  }

  /** The layout `new(n)` builds: all `n` discs on tower 1, largest at the bottom. */
  function Initial(n: u8): Towers {
    Towers(Countdown(n), [], [])
  }

  /** `Countdown(n)` has `n` discs and disc `n - k` at position `k`. */
  lemma {:induction false} CountdownAt(n: u8)
    ensures |Countdown(n)| == n as int
    ensures forall k | 0 <= k < n as int :: Countdown(n)[k] as int == n as int - k
  {
    if n > 0 {
      CountdownAt(n - 1);
    }
  }

  /** Each disc `1..=n` occurs exactly once in `Countdown(n)`, and nothing else does. */
  lemma {:induction false} CountdownEachOnce(n: u8)
    ensures forall d: u8 :: multiset(Countdown(n))[d] == if 1 <= d <= n then 1 else 0
  {
    if n > 0 {
      CountdownEachOnce(n - 1);
      assert multiset(Countdown(n)) == multiset([n]) + multiset(Countdown(n - 1));
    }
  }

  /** `new(n)` yields a state satisfying both invariants. */
  lemma InitialValid(n: u8)
    ensures Initial(n).Valid(n)
  {
    CountdownAt(n);
    CountdownEachOnce(n);
    assert Initial(n).All() == Countdown(n);
  }

  /** Putting `x` on a strictly decreasing tower keeps it so exactly when the tower is empty or its top is larger. */
  lemma PushKeepsDecreasing(s: seq<u8>, x: u8)
    requires StrictlyDecreasing(s)
    ensures StrictlyDecreasing(s + [x]) <==> s == [] || x < Top(s)
  {
    if s != [] && StrictlyDecreasing(s + [x]) {
      assert (s + [x])[|s| - 1] > (s + [x])[|s|];
    }
  }

  /**
   * On an ordered state a pair of towers is legal exactly when the source
   * has a disc, the towers differ, and the target stays strictly decreasing
   * with the source's top put on it.
   */
  lemma LegalIffOrderKept(v: Towers, from: u8, to: u8)
    requires v.Ordered() && IsTowerId(from) && IsTowerId(to)
    ensures v.IsLegal(from, to) == Ok(true) <==>
              v.Get(from) != [] && from != to && StrictlyDecreasing(v.Get(to) + [Top(v.Get(from))])
  {
    if v.Get(from) != [] {
      PushKeepsDecreasing(v.Get(to), Top(v.Get(from)));
    }
  }

  /** A legal move keeps every tower strictly decreasing (invariant I2). */
  lemma MoveKeepsOrder(v: Towers, from: u8, to: u8)
    requires v.Ordered() && v.Move(from, to).Ok?
    ensures v.Move(from, to).value.Ordered()
  {
    var w := v.Move(from, to).value;
    var other := Third(from, to);
    PushKeepsDecreasing(v.Get(to), Top(v.Get(from)));
    assert StrictlyDecreasing(w.Get(from));
    assert StrictlyDecreasing(w.Get(to));
    assert StrictlyDecreasing(w.Get(other));
  }

  /** Two states that agree on all three towers, named as `a`, `b` and the third, are equal. */
  lemma SameTowers(u: Towers, w: Towers, a: u8, b: u8)
    requires IsTowerId(a) && IsTowerId(b) && a != b
    requires u.Get(a) == w.Get(a) && u.Get(b) == w.Get(b) && u.Get(Third(a, b)) == w.Get(Third(a, b))
    ensures u == w
  {
  }

  /** The discs of a state, as a multiset, are those of its three towers. */
  lemma DiscsByTower(v: Towers, a: u8, b: u8)
    requires IsTowerId(a) && IsTowerId(b) && a != b
    ensures multiset(v.All()) == multiset(v.Get(a)) + multiset(v.Get(b)) + multiset(v.Get(Third(a, b)))
  {
    assert multiset(v.All()) == multiset(v.tower1) + multiset(v.tower2) + multiset(v.tower3);
  }

  /** A legal move neither creates nor loses a disc. */
  lemma MoveKeepsDiscs(v: Towers, from: u8, to: u8)
    requires v.Move(from, to).Ok?
    ensures multiset(v.Move(from, to).value.All()) == multiset(v.All())
  {
    var w := v.Move(from, to).value;
    var source := v.Get(from);
    assert source == w.Get(from) + [Top(source)];
    DiscsByTower(v, from, to);
    DiscsByTower(w, from, to);
  }

  /** A legal move keeps both invariants, so every state reachable from `new(n)` satisfies them. */
  lemma MoveKeepsValid(v: Towers, n: u8, from: u8, to: u8)
    requires v.Valid(n) && v.Move(from, to).Ok?
    ensures v.Move(from, to).value.Valid(n)
  {
    MoveKeepsOrder(v, from, to);
    MoveKeepsDiscs(v, from, to);
  }

  /**
   * On a state holding each disc once, of two different non-empty towers
   * exactly one can move onto the other: their tops are distinct discs.
   */
  lemma ExactlyOneDirection(v: Towers, n: u8, a: u8, b: u8)
    requires v.HoldsEachOnce(n) && IsTowerId(a) && IsTowerId(b) && a != b
    requires v.Get(a) != [] && v.Get(b) != []
    ensures (v.IsLegal(a, b) == Ok(true)) != (v.IsLegal(b, a) == Ok(true))
  {
    var x := Top(v.Get(a));
    DiscsByTower(v, a, b);
    assert x in multiset(v.Get(a));
    assert multiset(v.All())[x] <= 1;
  }

  /** After a legal move from a strictly decreasing source, moving the disc back is legal. */
  lemma MoveBackLegal(v: Towers, from: u8, to: u8)
    requires v.Move(from, to).Ok?
    requires StrictlyDecreasing(v.Get(from))
    ensures v.Move(from, to).value.IsLegal(to, from) == Ok(true)
  {
    var w := v.Move(from, to).value;
    var source := v.Get(from);
    if w.Get(from) != [] {
      assert Top(w.Get(from)) == source[|source| - 2];
      assert Top(w.Get(to)) == source[|source| - 1];
    }
  }

  /** A legal move from a strictly decreasing source is undone by the move back. */
  lemma MoveUndone(v: Towers, from: u8, to: u8)
    requires v.Move(from, to).Ok?
    requires StrictlyDecreasing(v.Get(from))
    ensures v.Move(from, to).value.Move(to, from) == Ok(v)
  {
    var w := v.Move(from, to).value;
    var source, target := v.Get(from), v.Get(to);
    MoveBackLegal(v, from, to);
    var u := w.Move(to, from).value;
    assert Third(to, from) == Third(from, to);
    assert u.Get(from) == source by {
      assert u.Get(from) == source[..|source| - 1] + [source[|source| - 1]];
    }
    assert u.Get(to) == target by {
      assert u.Get(to) == (target + [Top(source)])[..|target|];
    }
    SameTowers(u, v, from, to);
  }

  /** The reverse of a sequence. */
  function Reverse(s: seq<u8>): (r: seq<u8>)
    ensures |r| == |s|
    ensures forall k | 0 <= k < |s| :: r[k] == s[|s| - 1 - k]
  {
    if s == [] then [] else [s[|s| - 1]] + Reverse(s[..|s| - 1])
  }

  /** The actor's state record, whose towers `move_disc` changes in place. */
  class State {
    var tower1: seq<u8>
    var tower2: seq<u8>
    var tower3: seq<u8>

    function View(): Towers
      reads this
    {
      Towers(tower1, tower2, tower3)
    }

    /** `new(n)`: push `1..=n` onto tower 1, then reverse it; the other towers are empty. */
    constructor (n: u8)
      ensures View() == Initial(n)
    {
      var t: seq<u8> := [];
      for i := 1 to n as int + 1
        invariant |t| == i - 1
        invariant forall k | 0 <= k < |t| :: t[k] as int == k + 1
      {
        t := t + [i as u8];
      }
      CountdownAt(n);
      assert Reverse(t) == Countdown(n);
      tower1 := Reverse(t);
      tower2 := [];
      tower3 := [];
    }

    /** `load`: the record decoded from the current root. */
    constructor Load(v: Towers)
      ensures View() == v
    {
      tower1, tower2, tower3 := v.tower1, v.tower2, v.tower3;
    }

    /**
     * `move_disc`: after the legality check, pop the source's top and push
     * it onto the target. On an abort or an illegal pair nothing is touched.
     */
    method MoveDisc(from: u8, to: u8) returns (r: Outcome)
      modifies this
      ensures old(View()).Move(from, to).Ok? ==> r == Pass && View() == old(View()).Move(from, to).value
      ensures old(View()).Move(from, to).Err? ==> r == Fail(old(View()).Move(from, to).error) && unchanged(this)
      ensures old(View().Ordered()) ==> View().Ordered()
      ensures multiset(View().All()) == old(multiset(View().All()))
    {
      ghost var before := View();
      var legal := View().IsLegal(from, to);
      if legal.Err? {
        return Fail(legal.error);
      }
      if !legal.value {
        return Fail(IllegalMove(from, to));
      }
      // IsLegal has validated both ids, so the source's default arms, which
      // abort with an invalid id, cannot be reached here.
      var disc := PopTop(from);
      PushOnto(to, disc);
      r := Pass;
      if before.Ordered() {
        MoveKeepsOrder(before, from, to);
      }
      MoveKeepsDiscs(before, from, to);
    }

    /** `pop().unwrap()` on tower `id`: removes and returns its top disc. */
    method PopTop(id: u8) returns (disc: u8)
      requires IsTowerId(id) && View().Get(id) != []
      modifies this
      ensures disc == Top(old(View()).Get(id))
      ensures View() == old(View()).With(id, old(View()).Get(id)[..|old(View()).Get(id)| - 1])
    {
      if id == 1 {
        disc := tower1[|tower1| - 1];
        tower1 := tower1[..|tower1| - 1];
      } else if id == 2 {
        disc := tower2[|tower2| - 1];
        tower2 := tower2[..|tower2| - 1];
      } else {
        disc := tower3[|tower3| - 1];
        tower3 := tower3[..|tower3| - 1];
      }
    }

    /** `push(disc)` on tower `id`: `disc` becomes its new top. */
    method PushOnto(id: u8, disc: u8)
      requires IsTowerId(id)
      modifies this
      ensures View() == old(View()).With(id, old(View()).Get(id) + [disc])
    {
      if id == 1 {
        tower1 := tower1 + [disc];
      } else if id == 2 {
        tower2 := tower2 + [disc];
      } else {
        tower3 := tower3 + [disc];
      }
    }
  }
}
