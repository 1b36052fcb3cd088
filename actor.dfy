/**
 * The actor around the Tower-of-Hanoi state in src/lib.rs: dispatch on the
 * method number, the constructor's caller check, the ASCII-digit decoding of
 * the move parameters, and one invocation from load to save.
 *
 * The persisted root is modelled as the state value it points to (`None`
 * while no root is set); the CBOR encoding and content hashing behind it are
 * not part of this model.
 */
module Actor {
  import opened Hanoi

  /** The only caller allowed to run the constructor: the init actor. */
  const InitActorAddr: nat := 1

  /** The number of discs the constructor lays out. */
  const ConstructorDiscs: u8 := 5

  /** `b'0'`. */
  const AsciiZero: u8 := 48

  datatype Option<T> = None | Some(value: T)

  /** The methods of the actor, with every other number kept as unhandled. */
  datatype Method = ConstructorMethod | GetMethod | MoveDiscMethod | Unhandled(number: nat)
  {
    function Number(): nat
      requires !Unhandled?
    {
      match this
      case ConstructorMethod => 1
      case GetMethod => 2
      case MoveDiscMethod => 3
    }
  }

  /** What an invocation returns: no data, or the state it reports (its Debug text is not modelled). */
  datatype Reply = NoData | Dump(state: Towers)

  /** Dispatch: 1, 2 and 3 name the three methods; any other number is unhandled. */
  function MethodOf(number: nat): (m: Method)
    ensures m.Unhandled? <==> !(1 <= number <= 3)
    ensures m.Unhandled? ==> m.number == number
    ensures !m.Unhandled? ==> m.Number() == number
  {
    if number == 1 then ConstructorMethod
    else if number == 2 then GetMethod
    else if number == 3 then MoveDiscMethod
    else Unhandled(number)
  }

  /** The constructor's access check: only the init actor may call it. */
  function CheckCaller(caller: nat): (r: Outcome)
    ensures r == Pass <==> caller == InitActorAddr
    ensures r.Fail? ==> r.error == ForbiddenCaller(caller) && r.error.Code() == UsrForbidden
  {
    if caller != InitActorAddr then Fail(ForbiddenCaller(caller)) else Pass
  }

  /**
   * `b - b'0'` on a `u8`, wrapping below `'0'` as a release build does: a
   * digit byte gives its value, any smaller byte a value from 208 up.
   */
  function DecodeDigit(b: u8): (d: u8)
    ensures AsciiZero <= b ==> d as int == b as int - AsciiZero as int
    ensures b < AsciiZero ==> d as int >= 256 - AsciiZero as int
    ensures IsTowerId(d) <==> '1' as int <= b as int <= '3' as int
  {
    ((b as int - AsciiZero as int) % 256) as u8
  }

  /** The `from` and `to` of a move are the first two parameter bytes; fewer than two bytes panic. */
  function DecodeMove(params: seq<u8>): (r: Result<(u8, u8)>)
    ensures r.Ok? <==> |params| >= 2
    ensures r.Err? ==> r.error == ParamsTooShort(|params|)
    ensures r.Ok? ==> r.value == (DecodeDigit(params[0]), DecodeDigit(params[1]))
  {
    if |params| < 2 then Err(ParamsTooShort(|params|))
    else Ok((DecodeDigit(params[0]), DecodeDigit(params[1])))
  }

  /** A move request succeeds only if its two bytes are different ASCII digits `'1'` to `'3'`. */
  lemma MoveParamsAreDigits(v: Towers, params: seq<u8>)
    requires DecodeMove(params).Ok?
    requires v.Move(DecodeMove(params).value.0, DecodeMove(params).value.1).Ok?
    ensures '1' as int <= params[0] as int <= '3' as int
    ensures '1' as int <= params[1] as int <= '3' as int
    ensures params[0] != params[1]
  {
    var (from, to) := DecodeMove(params).value;
    assert IsTowerId(from) && IsTowerId(to) && from != to;
  }

  /** The actor: the state record its current root points to. */
  class HanoiActor {
    var root: Option<Towers>

    /** Before the constructor has run no root is set. */
    constructor ()
      ensures root == None
    {
      root := None;
    }

    /** Both invariants hold of the rooted state with the constructor's disc count. */
    ghost predicate RootValid()
      reads this
    {
      root.Some? ==> root.value.Valid(ConstructorDiscs)
    }

    /** `State::load`: decode the state the root points to; no root aborts. */
    method Load() returns (r: Result<State>)
      ensures root.None? ==> r == Err(NoState)
      ensures root.Some? ==> r.Ok? && fresh(r.value) && r.value.View() == root.value
    {
      if root.None? {
        return Err(NoState);
      }
      var state := new State.Load(root.value);
      r := Ok(state);
    }

    /** `State::save`: the saved record becomes the new root. */
    method Save(state: State)
      modifies this
      ensures root == Some(state.View())
    {
      root := Some(state.View());
    }

    /** `constructor`: after the caller check, root a fresh `new(5)`. */
    method Constructor(caller: nat) returns (r: Result<Reply>)
      modifies this
      ensures CheckCaller(caller).Fail? ==> r == Err(CheckCaller(caller).error) && root == old(root)
      ensures CheckCaller(caller) == Pass ==> r == Ok(NoData) && root == Some(Initial(ConstructorDiscs))
    {
      var check := CheckCaller(caller);
      if check.Fail? {
        return Err(check.error);
      }
      var state := new State(ConstructorDiscs);
      Save(state);
      r := Ok(NoData);
    }

    /** `get`: report the rooted state without changing it. */
    method Get() returns (r: Result<Reply>)
      ensures root.None? ==> r == Err(NoState)
      ensures root.Some? ==> r == Ok(Dump(root.value))
    {
      var loaded := Load();
      if loaded.Err? {
        return Err(loaded.error);
      }
      r := Ok(Dump(loaded.value.View()));
    }

    /**
     * `move_disc(params)`: load, decode the two tower ids, move, save and
     * report the new state. Any abort leaves the root as it was.
     */
    method MoveDisc(params: seq<u8>) returns (r: Result<Reply>)
      modifies this
      ensures old(root).None? ==> r == Err(NoState) && root == old(root)
      ensures old(root).Some? && DecodeMove(params).Err? ==> r == Err(DecodeMove(params).error) && root == old(root)
      ensures old(root).Some? && DecodeMove(params).Ok? ==>
                var step := old(root).value.Move(DecodeMove(params).value.0, DecodeMove(params).value.1);
                && (step.Err? ==> r == Err(step.error) && root == old(root))
                && (step.Ok? ==> r == Ok(Dump(step.value)) && root == Some(step.value))
    {
      var loaded := Load();
      if loaded.Err? {
        return Err(loaded.error);
      }
      var state := loaded.value;
      var decoded := DecodeMove(params);
      if decoded.Err? {
        return Err(decoded.error);
      }
      var outcome := state.MoveDisc(decoded.value.0, decoded.value.1);
      if outcome.Fail? {
        return Err(outcome.error);
      }
      Save(state);
      r := Ok(Dump(state.View()));
    }

    /**
     * `invoke`: dispatch on the method number. Every abort leaves the root
     * untouched, and every invocation keeps both invariants of the rooted state.
     */
    method Invoke(number: nat, caller: nat, params: seq<u8>) returns (r: Result<Reply>)
      modifies this
      ensures r.Err? ==> root == old(root)
      ensures old(RootValid()) ==> RootValid()
      ensures MethodOf(number).ConstructorMethod? ==>
                r == (if caller == InitActorAddr then Ok(NoData) else Err(ForbiddenCaller(caller)))
                && (r.Ok? ==> root == Some(Initial(ConstructorDiscs)))
      ensures MethodOf(number).GetMethod? ==>
                root == old(root) && r == (if root.None? then Err(NoState) else Ok(Dump(root.value)))
      ensures MethodOf(number).MoveDiscMethod? && old(root).Some? && DecodeMove(params).Ok? ==>
                var step := old(root).value.Move(DecodeMove(params).value.0, DecodeMove(params).value.1);
                && (step.Err? ==> r == Err(step.error))
                && (step.Ok? ==> r == Ok(Dump(step.value)) && root == Some(step.value))
      ensures MethodOf(number).MoveDiscMethod? && old(root).None? ==> r == Err(NoState)
      ensures MethodOf(number).MoveDiscMethod? && old(root).Some? && DecodeMove(params).Err? ==>
                r == Err(ParamsTooShort(|params|))
      ensures MethodOf(number).Unhandled? ==> r == Err(UnhandledMethod(number))
    {
      ghost var before := root;
      match MethodOf(number)
      case ConstructorMethod =>
        r := Constructor(caller);
        InitialValid(ConstructorDiscs);
      case GetMethod =>
        r := Get();
      case MoveDiscMethod =>
        r := MoveDisc(params);
        if r.Ok? && before.Some? && before.value.Valid(ConstructorDiscs) {
          var (from, to) := DecodeMove(params).value;
          MoveKeepsValid(before.value, ConstructorDiscs, from, to);
        }
      case Unhandled(n) =>
        r := Err(UnhandledMethod(n));
    }
  }

  /** Before the constructor no move is possible; only the init actor may construct; the layout is `new(5)`. */
  method ScenarioConstruct() {
    var actor := new HanoiActor();
    var r := actor.Invoke(3, 1, [49, 51]);
    assert r == Err(NoState);
    r := actor.Invoke(1, 7, []);
    assert r == Err(ForbiddenCaller(7)) && actor.root == None;
    r := actor.Invoke(1, 1, []);
    assert Countdown(5) == [5, 4, 3, 2, 1];
    assert r == Ok(NoData) && actor.root == Some(Towers([5, 4, 3, 2, 1], [], []));
    r := actor.Invoke(4, 1, []);
    assert r == Err(UnhandledMethod(4)) && actor.root == Some(Towers([5, 4, 3, 2, 1], [], []));
  }

  /** A legal move through the parameter bytes, then each kind of refusal, none of which moves the root. */
  method ScenarioMoves() {
    var actor := new HanoiActor();
    var start := Towers([5, 4, 3, 2, 1], [], []);
    var next := Towers([5, 4, 3, 2], [], [1]);
    actor.root := Some(start);
    assert start.IsLegal(1, 3) == Ok(true);
    assert [5, 4, 3, 2, 1][..4] == [5, 4, 3, 2];
    SameTowers(start.Move(1, 3).value, next, 1, 3);
    var r := actor.Invoke(3, 9, [49, 51]);
    assert actor.root == Some(next);
    assert next.IsLegal(1, 3) == Ok(false);
    r := actor.Invoke(3, 9, [49, 51]);
    assert r == Err(IllegalMove(1, 3));
    r := actor.Invoke(3, 9, [50, 57]);
    assert r == Err(IllegalMove(2, 9));
    r := actor.Invoke(3, 9, [57, 49]);
    assert r == Err(InvalidFrom(9));
    r := actor.Invoke(3, 9, [49, 52]);
    assert r == Err(InvalidTo(4));
    r := actor.Invoke(3, 9, [49]);
    assert r == Err(ParamsTooShort(1));
    assert actor.root == Some(next);
  }

  /** Three discs: `new(3)`, then the smallest disc moves to tower 3. */
  method ScenarioThreeDiscs() {
    var s := new State(3);
    assert Countdown(3) == [3, 2, 1];
    assert [3, 2, 1][..2] == [3, 2];
    SameTowers(Towers([3, 2, 1], [], []).Move(1, 3).value, Towers([3, 2], [], [1]), 1, 3);
    var r := s.MoveDisc(1, 3);
    assert r == Pass && s.View() == Towers([3, 2], [], [1]);
  }

  /** Three discs, continued: the middle disc moves to the empty tower 2. */
  method ScenarioThreeDiscsSecond() {
    var s := new State.Load(Towers([3, 2], [], [1]));
    assert [3, 2][..1] == [3];
    SameTowers(Towers([3, 2], [], [1]).Move(1, 2).value, Towers([3], [2], [1]), 1, 2);
    var r := s.MoveDisc(1, 2);
    assert r == Pass && s.View() == Towers([3], [2], [1]);
  }

  /** Three discs, continued: a legal move, then a larger disc refused on a smaller one with nothing changed. */
  method ScenarioThreeDiscsRefused() {
    var s := new State.Load(Towers([3], [2], [1]));
    SameTowers(Towers([3], [2], [1]).Move(3, 2).value, Towers([3], [2, 1], []), 3, 2);
    var r := s.MoveDisc(3, 2);
    assert r == Pass && s.View() == Towers([3], [2, 1], []);
    r := s.MoveDisc(1, 2);
    assert r == Fail(IllegalMove(1, 2)) && s.View() == Towers([3], [2, 1], []);
  }
}
