/**
 * The per-user navigation state of main.py: the current screen and the
 * stack of screens to go back to, as `show_screen`, `nav:back` and
 * `nav:home` change them. The store-level view (which `user_states` rows
 * hold them) is given by `StackOf`, `CurrentOf` and `ShowStates`.
 */
module Navigation {
  import opened UserStore

  /** `stack[-20:]` keeps at most this many entries. */
  const MaxStack: nat := 20

  /** `s[-20:]`: the last (at most) twenty entries. */
  function Last20(s: seq<string>): (r: seq<string>)
    ensures |r| == if |s| <= MaxStack then |s| else MaxStack
    ensures r == s[|s| - |r|..]
  {
    if |s| <= MaxStack then s else s[|s| - MaxStack..]
  }

  /** The stack `show_screen` leaves: emptied first on `clear`, then the old screen pushed when it changes. */
  function NextStack(stack: seq<string>, current: string, target: string, push: bool, clear: bool): (r: seq<string>) {
    var base := if clear then [] else stack;
    if push && target != current then Last20(base + [current]) else base
  }

  // ---------------------------------------------------------------------------
  // the state machine

  datatype NavState = NavState(current: string, stack: seq<string>)

  /** A fresh user: on home, nothing to go back to. */
  const Start := NavState("home", [])

  datatype NavInput =
    | Open(screen: string, push: bool, clear: bool)   // show_screen(screen, push_current, clear_stack)
    | Back                                            // nav:back
    | Home                                            // nav:home

  /** One transition, for a user who is not banned. */
  function Step(s: NavState, input: NavInput): (r: NavState)
    ensures input.Open? ==> r.current == input.screen
    ensures input.Open? && input.clear ==>
              r.stack == (if input.push && input.screen != s.current then [s.current] else [])
    ensures input.Open? && !input.clear ==>
              r.stack == (if input.push && input.screen != s.current then Last20(s.stack + [s.current]) else s.stack)
    ensures input.Home? ==> r == Start
    ensures input.Back? && s.stack == [] ==> r == Start
    ensures input.Back? && s.stack != [] ==> r.current == s.stack[|s.stack| - 1] && s.stack == r.stack + [r.current]
  {
    match input
    case Open(screen, push, clear) => NavState(screen, NextStack(s.stack, s.current, screen, push, clear))
    case Back =>
      if s.stack == [] then NavState("home", NextStack(s.stack, s.current, "home", false, true))
      else
        var prev := s.stack[|s.stack| - 1];
        var popped := s.stack[..|s.stack| - 1];
        assert s.stack == popped + [prev];
        NavState(prev, NextStack(popped, s.current, prev, false, false))
    case Home => NavState("home", NextStack(s.stack, s.current, "home", false, true))
  }

  function Run(s: NavState, inputs: seq<NavInput>): (r: NavState)
    decreases |inputs|
  {
    if inputs == [] then s else Run(Step(s, inputs[0]), inputs[1..])
  }

  predicate Bounded(s: NavState) { |s.stack| <= MaxStack }

  /** Every transition keeps the stack within twenty entries. */
  lemma StepBounded(s: NavState, input: NavInput)
    requires Bounded(s)
    ensures Bounded(Step(s, input))
  {
  }

  /** So does any sequence of them, from any bounded state. */
  lemma {:induction false} RunBounded(s: NavState, inputs: seq<NavInput>)
    requires Bounded(s)
    ensures Bounded(Run(s, inputs))
    decreases |inputs|
  {
    if inputs != [] {
      StepBounded(s, inputs[0]);
      RunBounded(Step(s, inputs[0]), inputs[1..]);
    }
  }

  /** `nav:back` right after a pushing move to a different screen returns to where it started. */
  lemma BackUndoesOpen(s: NavState, target: string)
    requires target != s.current && |s.stack| < MaxStack
    ensures Step(Step(s, Open(target, true, false)), Back) == s
  {
    var t := Step(s, Open(target, true, false));
    assert t.stack == s.stack + [s.current];
    assert t.stack[..|t.stack| - 1] == s.stack;
  }

  /** On a full stack a push drops the oldest entry. */
  lemma FullStackDropsOldest(s: NavState, target: string)
    requires target != s.current && |s.stack| == MaxStack
    ensures Step(s, Open(target, true, false)).stack == s.stack[1..] + [s.current]
  {
    var grown := s.stack + [s.current];
    assert grown[1..] == s.stack[1..] + [s.current];
  }

  /** Re-opening the current screen, or opening without push, leaves the stack alone. */
  lemma OpenWithoutPush(s: NavState, target: string, push: bool)
    requires !push || target == s.current
    ensures Step(s, Open(target, push, false)) == NavState(target, s.stack)
  {
  }

  /** Opening home with the stack cleared and nothing pushed is `nav:home`: back to the start. */
  lemma ClearedHomeIsStart(s: NavState)
    ensures Step(s, Open("home", false, true)) == Step(s, Home) == Start
  {
  }

  /** A clearing open leaves at most the screen it came from on the stack. */
  lemma ClearedOpenStack(s: NavState, target: string, push: bool)
    ensures |Step(s, Open(target, push, true)).stack| <= 1
    ensures Step(s, Open(target, push, true)).stack == [] <==> !push || target == s.current
  {
  }

  /** home -> menu -> plans -> back -> back ends where it began. */
  lemma MenuPlansBackBack()
    ensures Run(Start, [Open("menu", true, false), Open("plans", true, false), Back, Back]) == Start
  {
    var s1 := Step(Start, Open("menu", true, false));
    var s2 := Step(s1, Open("plans", true, false));
    BackUndoesOpen(s1, "plans");
    BackUndoesOpen(Start, "menu");
    var inputs := [Open("menu", true, false), Open("plans", true, false), Back, Back];
    assert inputs[1..] == [Open("plans", true, false), Back, Back];
    assert inputs[1..][1..] == [Back, Back];
    assert inputs[1..][1..][1..] == [Back];
    calc {
      Run(Start, inputs);
      Run(s1, inputs[1..]);
      Run(s2, inputs[1..][1..]);
      Run(s1, inputs[1..][1..][1..]);
      Run(Start, inputs[1..][1..][1..][1..]);
    }
    assert inputs[1..][1..][1..][1..] == [];
  }

  // ---------------------------------------------------------------------------
  // the states rows that hold it

  /** `_nav_stack`: the stored list, or [] when absent, undecodable or not a list. */
  function StackOf(states: map<StateKey, Stored>, u: int): seq<string> {
    match StateIn(states, u, "nav_stack", ScreenList([]))
    case ScreenList(l) => l
    case _ => []
  }

  /** `_current_screen`: the stored text, or "home" when absent, undecodable or not a string. */
  function CurrentOf(states: map<StateKey, Stored>, u: int): string {
    match StateIn(states, u, "current_screen", Str("home"))
    case Str(s) => s
    case _ => "home"
  }

  function NavOf(states: map<StateKey, Stored>, u: int): NavState {
    NavState(CurrentOf(states, u), StackOf(states, u))
  }

  /** The `user_states` writes of `show_screen` for a user who is not banned. */
  function ShowStates(states: map<StateKey, Stored>, u: int, screen: string, push: bool, clear: bool): (r: map<StateKey, Stored>)
    ensures CurrentOf(r, u) == screen
  {
    var s1 := if clear then states[(u, "nav_stack") := Json(ScreenList([]))] else states;
    var cur := CurrentOf(s1, u);
    var s2 := if push && screen != cur then s1[(u, "nav_stack") := Json(ScreenList(Last20(StackOf(s1, u) + [cur])))] else s1;
    StackAfterWrite(states, u, []);
    StackAfterWrite(s1, u, Last20(StackOf(s1, u) + [cur]));
    CurrentAfterWrite(s2, u, screen);
    s2[(u, "current_screen") := Json(Str(screen))]
  }

  lemma StackAfterWrite(states: map<StateKey, Stored>, u: int, l: seq<string>)
    ensures StackOf(states[(u, "nav_stack") := Json(ScreenList(l))], u) == l
    ensures CurrentOf(states[(u, "nav_stack") := Json(ScreenList(l))], u) == CurrentOf(states, u)
  {
    assert "nav_stack"[0] != "current_screen"[0];
  }

  lemma CurrentAfterWrite(states: map<StateKey, Stored>, u: int, screen: string)
    ensures CurrentOf(states[(u, "current_screen") := Json(Str(screen))], u) == screen
    ensures StackOf(states[(u, "current_screen") := Json(Str(screen))], u) == StackOf(states, u)
  {
    assert "nav_stack"[0] != "current_screen"[0];
  }

  /** What those writes mean: the user's navigation state takes an `Open` step. */
  lemma ShowStatesStep(states: map<StateKey, Stored>, u: int, screen: string, push: bool, clear: bool)
    ensures NavOf(ShowStates(states, u, screen, push, clear), u) == Step(NavOf(states, u), Open(screen, push, clear))
  {
    var s1 := if clear then states[(u, "nav_stack") := Json(ScreenList([]))] else states;
    if clear { StackAfterWrite(states, u, []); }
    var cur := CurrentOf(s1, u);
    var s2 := if push && screen != cur then s1[(u, "nav_stack") := Json(ScreenList(Last20(StackOf(s1, u) + [cur])))] else s1;
    if push && screen != cur { StackAfterWrite(s1, u, Last20(StackOf(s1, u) + [cur])); }
    CurrentAfterWrite(s2, u, screen);
  }

  /** ... and no other row moves. */
  lemma ShowStatesFrame(states: map<StateKey, Stored>, u: int, screen: string, push: bool, clear: bool)
    ensures StatesSameExcept(states, ShowStates(states, u, screen, push, clear), u, {"nav_stack", "current_screen"})
  {
  }
}
