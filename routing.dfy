/**
 * The small decision rules of main.py: how callback data is routed, who the
 * root admin is, how an admin target id is read, the gates of a signal
 * request, and when a payment check upgrades the plan.
 */
module Routing {
  import opened Wrappers
  import opened Strings
  import opened Payments
  import opened UserStore

  // ---------------------------------------------------------------------------
  // callback data

  /** What a button press asks for, as `callback_router` tells the cases apart. */
  datatype Callback =
    | NavHome
    | NavBack
    | NavTo(screen: string)
    | SignalAction
    | SetLanguage(code: string)
    | SetCurrency(code: string)
    | AdminGive(plan: string)
    | AdminFlowStart(action: string)
    | AdminOther
    | PlanSelect(plan: string)
    | PlanCheck(paymentId: string)
    | Unrouted

  /** The screens a `nav:<screen>` press may open. */
  const NavTargets: set<string> := {"menu", "plans", "settings", "home", "help", "bank", "my_longs", "my_stats"}

  predicate IsAdminCallback(c: Callback) {
    c.AdminGive? || c.AdminFlowStart? || c.AdminOther?
  }

  /** The branch order of `callback_router`, applied to `query.data`. */
  function ParseCallback(data: string): (r: Callback)
    ensures !(r.Unrouted? || IsAdminCallback(r)) ==> CallbackData(r) == data
    ensures r.NavTo? ==> r.screen in NavTargets
  {
    if data == "nav:home" then NavHome
    else if data == "nav:back" then NavBack
    else if StartsWith(data, "nav:") then
      var screen := After(data, "nav:");
      if screen in NavTargets then NavTo(screen) else Unrouted
    else if data == "action:signal" then SignalAction
    else if StartsWith(data, "set:lang:") then SetLanguage(After(data, "set:lang:"))
    else if StartsWith(data, "set:currency:") then SetCurrency(After(data, "set:currency:"))
    else if StartsWith(data, "admin:") then
      if StartsWith(data, "admin:give:") then AdminGive(Lower(Strip(After(data, "admin:give:"))))
      else if StartsWith(data, "admin:flow:") then AdminFlowStart(Strip(After(data, "admin:flow:")))
      else AdminOther
    else if StartsWith(data, "plan:select:") then PlanSelect(After(data, "plan:select:"))
    else if StartsWith(data, "plan:check:") then PlanCheck(After(data, "plan:check:"))
    else Unrouted
  }

  /** The `callback_data` a button carries for each action. */
  function CallbackData(c: Callback): string {
    match c
    case NavHome => "nav:home"
    case NavBack => "nav:back"
    case NavTo(screen) => "nav:" + screen
    case SignalAction => "action:signal"
    case SetLanguage(code) => "set:lang:" + code
    case SetCurrency(code) => "set:currency:" + code
    case AdminGive(plan) => "admin:give:" + plan
    case AdminFlowStart(action) => "admin:flow:" + action
    case AdminOther => "admin:"
    case PlanSelect(plan) => "plan:select:" + plan
    case PlanCheck(id) => "plan:check:" + id
    case Unrouted => ""
  }

  /** The actions whose data the router reads back as the same action. */
  predicate Routable(c: Callback) {
    match c
    case NavTo(screen) => screen in NavTargets && screen != "home"
    case AdminGive(plan) => Lower(Strip(plan)) == plan
    case AdminFlowStart(action) => Strip(action) == action
    case _ => true
  }

  lemma PrefixAfter(p: string, x: string)
    ensures StartsWith(p + x, p) && After(p + x, p) == x
  {
    assert (p + x)[..|p|] == p;
  }

  lemma DifferAt(d: string, q: string, k: nat)
    requires k < |d| && k < |q| && d[k] != q[k]
    ensures d != q && !StartsWith(d, q)
  {
  }

  lemma NavRoundTrip(screen: string)
    requires screen in NavTargets && screen != "home"
    ensures ParseCallback("nav:" + screen) == NavTo(screen)
  {
    var d := "nav:" + screen;
    PrefixAfter("nav:", screen);
    if d == "nav:home" { PrefixAfter("nav:", "home"); }
    if d == "nav:back" { PrefixAfter("nav:", "back"); }
  }

  lemma SetRoundTrip(c: Callback)
    requires c.SetLanguage? || c.SetCurrency?
    ensures ParseCallback(CallbackData(c)) == c
  {
    var d := CallbackData(c);
    DifferAt(d, "nav:home", 0); DifferAt(d, "nav:back", 0); DifferAt(d, "nav:", 0);
    DifferAt(d, "action:signal", 0);
    if c.SetLanguage? {
      PrefixAfter("set:lang:", c.code);
    } else {
      DifferAt(d, "set:lang:", 4);
      PrefixAfter("set:currency:", c.code);
    }
  }

  lemma AdminGiveRoundTrip(plan: string)
    ensures ParseCallback("admin:give:" + plan) == AdminGive(Lower(Strip(plan)))
  {
    var d := "admin:give:" + plan;
    DifferAt(d, "nav:home", 0); DifferAt(d, "nav:back", 0); DifferAt(d, "nav:", 0);
    DifferAt(d, "action:signal", 1); DifferAt(d, "set:lang:", 0); DifferAt(d, "set:currency:", 0);
    assert d == "admin:" + ("give:" + plan);
    PrefixAfter("admin:", "give:" + plan);
    PrefixAfter("admin:give:", plan);
  }

  lemma AdminFlowRoundTrip(action: string)
    ensures ParseCallback("admin:flow:" + action) == AdminFlowStart(Strip(action))
  {
    var d := "admin:flow:" + action;
    DifferAt(d, "nav:home", 0); DifferAt(d, "nav:back", 0); DifferAt(d, "nav:", 0);
    DifferAt(d, "action:signal", 1); DifferAt(d, "set:lang:", 0); DifferAt(d, "set:currency:", 0);
    assert d == "admin:" + ("flow:" + action);
    PrefixAfter("admin:", "flow:" + action);
    DifferAt(d, "admin:give:", 6);
    PrefixAfter("admin:flow:", action);
  }

  lemma AdminRoundTrip(c: Callback)
    requires IsAdminCallback(c) && Routable(c)
    ensures ParseCallback(CallbackData(c)) == c
  {
    match c
    case AdminGive(plan) => AdminGiveRoundTrip(plan);
    case AdminFlowStart(action) => AdminFlowRoundTrip(action);
    case AdminOther =>
      var d := CallbackData(c);
      DifferAt(d, "nav:", 0); DifferAt(d, "action:signal", 1);
      DifferAt(d, "set:lang:", 0); DifferAt(d, "set:currency:", 0);
      PrefixAfter("admin:", "");
  }

  lemma PlanRoundTrip(c: Callback)
    requires c.PlanSelect? || c.PlanCheck?
    ensures ParseCallback(CallbackData(c)) == c
  {
    var d := CallbackData(c);
    DifferAt(d, "nav:home", 0); DifferAt(d, "nav:back", 0); DifferAt(d, "nav:", 0);
    DifferAt(d, "action:signal", 0); DifferAt(d, "set:lang:", 0); DifferAt(d, "set:currency:", 0);
    DifferAt(d, "admin:", 0);
    if c.PlanSelect? {
      PrefixAfter("plan:select:", c.plan);
    } else {
      DifferAt(d, "plan:select:", 5);
      PrefixAfter("plan:check:", c.paymentId);
    }
  }

  /** Reading back the data of a routable action gives that action. */
  lemma CallbackRoundTrip(c: Callback)
    requires Routable(c)
    ensures ParseCallback(CallbackData(c)) == c
  {
    match c
    case NavTo(screen) => NavRoundTrip(screen);
    case SignalAction => DifferAt("action:signal", "nav:", 0);
    case SetLanguage(_) => SetRoundTrip(c);
    case SetCurrency(_) => SetRoundTrip(c);
    case AdminGive(_) => AdminRoundTrip(c);
    case AdminFlowStart(_) => AdminRoundTrip(c);
    case AdminOther => AdminRoundTrip(c);
    case PlanSelect(_) => PlanRoundTrip(c);
    case PlanCheck(_) => PlanRoundTrip(c);
    case _ =>
  }

  /** Every `admin:` press, and only such a press, lands in one of the admin branches. */
  lemma AdminPrefixRouted(data: string)
    ensures IsAdminCallback(ParseCallback(data)) <==> StartsWith(data, "admin:")
  {
    if StartsWith(data, "admin:") {
      DifferAt(data, "nav:home", 0); DifferAt(data, "nav:back", 0); DifferAt(data, "nav:", 0);
      DifferAt(data, "action:signal", 1); DifferAt(data, "set:lang:", 0); DifferAt(data, "set:currency:", 0);
    }
  }

  // ---------------------------------------------------------------------------
  // the root admin

  /** `ADMIN_USER_ID`: `int(env.strip() or "0") or None`, None when `int` raises. */
  function ParseAdminUserId(env: string): (r: Option<int>)
    ensures r.Some? ==> r.value != 0
  {
    var t := Strip(env);
    match ParseInt(if t == "" then "0" else t)
    case None => None
    case Some(n) => if n == 0 then None else Some(n)
  }

  /** `_is_root_admin`: an id is the root admin only when one is configured and it is that id. */
  function IsRootAdmin(adminUserId: Option<int>, u: int): (r: bool)
    ensures r ==> u != 0 && adminUserId == Some(u)
    ensures adminUserId == None ==> !r
  {
    adminUserId.Some? && adminUserId.value != 0 && u == adminUserId.value
  }

  /** With ADMIN_USER_ID set to the decimal form of n, exactly user n is the root admin, unless n is 0. */
  lemma RootAdminFromEnvironment(n: int, u: int)
    ensures IsRootAdmin(ParseAdminUserId(DecimalString(n)), u) <==> n != 0 && u == n
  {
    var s := DecimalString(n);
    ParseDecimalString(n);
    assert Strip(s) == s;
  }

  /** Unset or empty, no user is the root admin; user 0 never is. */
  lemma NoRootAdminByDefault(env: string, u: int)
    ensures !IsRootAdmin(ParseAdminUserId(""), u)
    ensures !IsRootAdmin(ParseAdminUserId(env), 0)
  {
    assert Strip("0") == "0";
    assert NumeralValue("0") == 0 by { assert "0"[..0] == ""; }
  }

  /** `_parse_target_id`: the first command argument as an integer, or None. */
  function ParseTargetId(args: seq<string>): (r: Option<int>)
    ensures args == [] ==> r == None
  {
    if args == [] then None else ParseInt(Strip(args[0]))
  }

  lemma TargetIdRoundTrip(n: int, rest: seq<string>)
    ensures ParseTargetId([DecimalString(n)] + rest) == Some(n)
  {
    var s := DecimalString(n);
    ParseDecimalString(n);
    assert Strip(s) == s;
    assert ([s] + rest)[0] == s;
  }

  /** A first argument without a digit gives no target, whatever follows. */
  lemma NonNumericTargetIgnored(args: seq<string>)
    requires args != [] && forall i :: 0 <= i < |args[0]| ==> !IsDigit(args[0][i])
    ensures ParseTargetId(args) == None
  {
    forall i | 0 <= i < |Strip(args[0])|
      ensures !IsDigit(Strip(args[0])[i])
    {
      StripKeeps(args[0], Strip(args[0])[i]);
    }
    NoDigitNoInt(Strip(args[0]));
  }

  // ---------------------------------------------------------------------------
  // the signal request gates

  datatype SignalGateResult = RequiresPlan | RequiresPo | SinkMissing | Submit

  /** The plans that `_handle_signal` lets through. */
  const SignalPlans: set<string> := {"pro", "vip"}

  /** The gates of `_handle_signal` in order; the first that fails decides. */
  function SignalGate(plan: string, hasCredentials: bool, sinkPresent: bool): (r: SignalGateResult)
    ensures r == RequiresPlan <==> plan !in SignalPlans
    ensures r == RequiresPo <==> plan in SignalPlans && !hasCredentials
    ensures r == SinkMissing <==> plan in SignalPlans && hasCredentials && !sinkPresent
    ensures r == Submit <==> plan in SignalPlans && hasCredentials && sinkPresent
  {
    if plan !in SignalPlans then RequiresPlan
    else if !hasCredentials then RequiresPo
    else if !sinkPresent then SinkMissing
    else Submit
  }

  /** The message each gate answers with; a failed submission reads as the sink being off. */
  function SignalMessageKey(r: SignalGateResult, submitted: bool): string {
    match r
    case RequiresPlan => "signal_requires_plan"
    case RequiresPo => "signal_requires_po"
    case SinkMissing => "signal_supabase_off"
    case Submit => if submitted then "signal_sent" else "signal_supabase_off"
  }

  /** Plans long and short are sold, yet never pass the plan gate. */
  lemma SoldPlansLongShortBlocked(hasCredentials: bool, sinkPresent: bool)
    ensures SignalGate("long", hasCredentials, sinkPresent) == RequiresPlan
    ensures SignalGate("short", hasCredentials, sinkPresent) == RequiresPlan
    ensures SignalGate("free", hasCredentials, sinkPresent) == RequiresPlan
  {
  }

  // ---------------------------------------------------------------------------
  // plans and payments

  /** The paid plans `plan:select:` creates a payment for. */
  const PaidPlans: set<string> := {"long", "short", "vip"}

  /** The price of a paid plan, in USDT. */
  function PlanPrice(plan: string): (amount: int)
    requires plan in PaidPlans
    ensures amount == (if plan == "vip" then 25 else 10)
  {
    if plan in {"long", "short"} then 10 else 25
  }

  /** `plan:check`: the plan to switch to, only for a paid status and a matching pending payment. */
  function PaidUpgrade(status: PaymentStatus, pending: Value, paymentId: string): (r: Option<string>)
    ensures r.Some? <==> status == Paid && pending.PendingPayment? && pending.paymentId == paymentId
    ensures r.Some? ==> r.value == pending.plan
  {
    if status == Paid && pending.PendingPayment? && pending.paymentId == paymentId
    then Some(pending.plan) else None
  }

  /** With the stub provider no check ever upgrades. */
  lemma StubNeverUpgrades(paymentId: string, pending: Value)
    ensures PaidUpgrade(CheckCryptoPaymentStatus(paymentId), pending, paymentId) == None
  {
  }

  /** The prompt `admin:flow:<action>` answers with. */
  function AdminPromptKey(action: string): string {
    match action
    case "ban" => "admin_prompt_ban"
    case "unban" => "admin_prompt_unban"
    case "reset" => "admin_prompt_reset"
    case "set_plan" => "admin_prompt_set_plan"
    case _ => "admin_bad_input"
  }
}
