/**
 * The UI bot of main.py: `send_ui`, `show_screen`, the branches of
 * `callback_router`, `_handle_signal` and the root-only moderation
 * commands, as methods of a class that owns the local store, the Telegram
 * gateway and the optional Supabase sink.
 */
module Bot {
  import opened Wrappers
  import opened Strings
  import opened Translation
  import opened Payments
  import opened UserStore
  import opened Routing
  import opened Screens
  import opened Navigation
  import opened Transport

  /** The currencies `set:currency:` accepts. */
  const CurrencyChoices: set<string> := {"USD", "EUR", "RUB"}

  /** `_ensure_not_banned` answers no: banned, and not the root admin. */
  function Blocked(adminUserId: Option<int>, p: Profile, u: int): bool {
    p.isBanned != 0 && !IsRootAdmin(adminUserId, u)
  }

  /** Python truthiness of a stored id. */
  predicate Truthy(x: Option<int>) { x.Some? && x.value != 0 }

  /** What `send_ui` asks of Telegram: delete the recorded UI message when both ids are set, then send. */
  function UiEvents(p: Profile, chatId: int, messageId: int, ui: Rendered): (r: seq<Event>)
    ensures |r| == 1 || |r| == 2
    ensures r[|r| - 1] == Sent(chatId, messageId, ui.body, ui.markup)
    ensures |r| == 2 <==> Truthy(p.lastUiChatId) && Truthy(p.lastUiMessageId)
    ensures |r| == 2 ==> r[0] == Deleted(p.lastUiChatId.value, p.lastUiMessageId.value)
  {
    (if Truthy(p.lastUiChatId) && Truthy(p.lastUiMessageId)
     then [Deleted(p.lastUiChatId.value, p.lastUiMessageId.value)] else [])
    + [Sent(chatId, messageId, ui.body, ui.markup)]
  }

  /** The profile after `send_ui` records the new message as the last UI message. */
  function WithLastUi(p: Profile, chatId: int, messageId: int): Profile {
    p.(lastUiChatId := Some(chatId), lastUiMessageId := Some(messageId))
  }

  /** The profile columns a user or an admin can change, as opposed to the UI bookkeeping. */
  predicate SameSettings(p: Profile, q: Profile) {
    p.language == q.language && p.currency == q.currency && p.plan == q.plan
    && p.isAdmin == q.isAdmin && p.isBanned == q.isBanned
  }

  /** A message with no keyboard. */
  function Message(catalog: Catalog, lang: string, key: string): Rendered
    requires "ru" in catalog
  {
    Rendered(Plain(Tr(catalog, lang, key, map[])), NoMarkup)
  }

  datatype Shown = Shown(states: map<StateKey, Stored>, ui: Rendered)

  /** What `show_screen` stores and shows, from the profile and rows it starts from. */
  function ShowSpec(catalog: Catalog, adminUserId: Option<int>, u: int, p: Profile, creds: map<int, CredRow>,
                    states: map<StateKey, Stored>, screen: string, push: bool, clear: bool): (r: Shown)
    requires "ru" in catalog
    ensures Blocked(adminUserId, p, u) ==> r.states == states
    ensures !Blocked(adminUserId, p, u) ==> CurrentOf(r.states, u) == screen
  {
    if Blocked(adminUserId, p, u) then Shown(states, Message(catalog, p.language, "banned"))
    else
      var next := ShowStates(states, u, screen, push, clear);
      Shown(next, RenderScreen(catalog, u, p, screen, StackOf(next, u), LoginPassword(Get(creds, u)).Some?))
  }

  /**
   * A blocked user gets the banned message and no navigation change; anyone
   * else takes an `Open` step and sees the target screen, with a back
   * control exactly when the new stack is non-empty off home.
   */
  lemma ShowSpecMeaning(catalog: Catalog, adminUserId: Option<int>, u: int, p: Profile, creds: map<int, CredRow>,
                        states: map<StateKey, Stored>, screen: string, push: bool, clear: bool)
    requires "ru" in catalog
    ensures var r := ShowSpec(catalog, adminUserId, u, p, creds, states, screen, push, clear);
      if Blocked(adminUserId, p, u) then
        r.states == states && r.ui == Message(catalog, p.language, "banned")
      else
        NavOf(r.states, u) == Step(NavOf(states, u), Open(screen, push, clear))
        && StatesSameExcept(states, r.states, u, {"nav_stack", "current_screen"})
        && (screen in KnownScreens ==>
              r.ui.markup.Inline?
              && (HasAction(r.ui.markup.rows, NavBack) <==> StackOf(r.states, u) != [] && screen != "home")
              && (HasAction(r.ui.markup.rows, NavHome) <==> screen != "home"))
  {
    if !Blocked(adminUserId, p, u) {
      ShowStatesStep(states, u, screen, push, clear);
      ShowStatesFrame(states, u, screen, push, clear);
      if screen in KnownScreens {
        ControlRules(catalog, p.language, screen, StackOf(ShowStates(states, u, screen, push, clear), u));
      }
    }
  }

  /** What `nav:back` stores and shows: pop and show the tail without pushing, or go home on an empty stack. */
  function BackSpec(catalog: Catalog, adminUserId: Option<int>, u: int, p: Profile, creds: map<int, CredRow>,
                    states: map<StateKey, Stored>): (r: Shown)
    requires "ru" in catalog
    ensures var stack := StackOf(states, u);
      !Blocked(adminUserId, p, u) ==> CurrentOf(r.states, u) == if stack == [] then "home" else stack[|stack| - 1]
  {
    var stack := StackOf(states, u);
    if stack == [] then ShowSpec(catalog, adminUserId, u, p, creds, states, "home", false, true)
    else
      var popped := states[(u, "nav_stack") := Json(ScreenList(stack[..|stack| - 1]))];
      ShowSpec(catalog, adminUserId, u, p, creds, popped, stack[|stack| - 1], false, false)
  }

  /**
   * `nav:back` is one `Back` step for a user who may navigate. For a blocked
   * user the pop is still stored before `show_screen` refuses, so the stack
   * loses its tail while the current screen stays.
   */
  lemma BackSpecMeaning(catalog: Catalog, adminUserId: Option<int>, u: int, p: Profile, creds: map<int, CredRow>,
                        states: map<StateKey, Stored>)
    requires "ru" in catalog
    ensures var r := BackSpec(catalog, adminUserId, u, p, creds, states);
      var stack := StackOf(states, u);
      StatesSameExcept(states, r.states, u, {"nav_stack", "current_screen"})
      && (!Blocked(adminUserId, p, u) ==> NavOf(r.states, u) == Step(NavOf(states, u), Back))
      && (Blocked(adminUserId, p, u) && stack != [] ==>
            NavOf(r.states, u) == NavState(CurrentOf(states, u), stack[..|stack| - 1]))
      && (Blocked(adminUserId, p, u) && stack == [] ==> r.states == states)
      && (Blocked(adminUserId, p, u) ==> r.ui == Message(catalog, p.language, "banned"))
  {
    var stack := StackOf(states, u);
    if stack == [] {
      ShowSpecMeaning(catalog, adminUserId, u, p, creds, states, "home", false, true);
    } else {
      var popped := states[(u, "nav_stack") := Json(ScreenList(stack[..|stack| - 1]))];
      StackAfterWrite(states, u, stack[..|stack| - 1]);
      ShowSpecMeaning(catalog, adminUserId, u, p, creds, popped, stack[|stack| - 1], false, false);
    }
  }

  /** Whether `set:lang:` / `set:currency:` accepts the code: a catalog language, or USD, EUR or RUB. */
  function SettingAccepted(catalog: Catalog, c: Callback): bool
    requires c.SetLanguage? || c.SetCurrency?
  {
    if c.SetLanguage? then c.code in catalog else c.code in CurrencyChoices
  }

  /** The profile after an accepted setting; a rejected one leaves it as it was. */
  function WithSetting(catalog: Catalog, p: Profile, c: Callback): (q: Profile)
    requires c.SetLanguage? || c.SetCurrency?
    ensures q.language == (if c.SetLanguage? && c.code in catalog then c.code else p.language)
    ensures q.currency == (if c.SetCurrency? && c.code in CurrencyChoices then c.code else p.currency)
    ensures q.plan == p.plan && q.isAdmin == p.isAdmin && q.isBanned == p.isBanned
    ensures q.lastUiChatId == p.lastUiChatId && q.lastUiMessageId == p.lastUiMessageId
  {
    if !SettingAccepted(catalog, c) then p
    else if c.SetLanguage? then p.(language := c.code)
    else p.(currency := c.code)
  }

  /** The message and keyboard that offer a created payment. */
  function PaymentOffer(catalog: Catalog, lang: string, pay: CryptoPayment): Rendered
    requires "ru" in catalog
    requires pay.payUrl.Some?
  {
    var args := map["plan" := Upper(pay.plan), "amount" := AmountText(pay.amount), "currency" := pay.currency,
                    "payment_id" := pay.paymentId, "pay_url" := pay.payUrl.value];
    Rendered(Plain(Tr(catalog, lang, "pay_created", args)),
             Inline([[Button("\U{2705} I paid / \U{41F}\U{440}\U{43E}\U{432}\U{435}\U{440}\U{438}\U{442}\U{44C}", PlanCheck(pay.paymentId))]]
                    + NavKb(catalog, lang, true, true)))
  }

  /** The payment `plan:select:<plan>` creates, when `plan` is not "free" and lowers to a paid plan. */
  function OfferedPayment(u: int, plan: string, token: string): (pay: CryptoPayment)
    requires IsHexToken(token) && plan != "free" && Lower(plan) in PaidPlans
    ensures pay.status == Pending && pay.plan == Lower(plan) && pay.userId == u
    ensures pay.paymentId == PaymentIdPrefix + token && pay.currency == "USDT"
    ensures pay.amount == (if Lower(plan) == "vip" then 25 else 10)
    ensures pay.payUrl.Some?
  {
    CreateCryptoPayment(u, Lower(plan), PlanPrice(Lower(plan)), token)
  }

  /** The row `plan:select:` stores for a created payment. */
  function PendingOf(pay: CryptoPayment): Value {
    PendingPayment(pay.paymentId, pay.plan, pay.amount, pay.currency)
  }

  /**
   * The offer and the stored pending payment name the same payment, so a
   * check through the offer's button would upgrade to the chosen plan once
   * the provider reports it paid, and only then.
   */
  lemma OfferMatchesPending(catalog: Catalog, lang: string, u: int, plan: string, token: string, status: PaymentStatus)
    requires "ru" in catalog && IsHexToken(token) && plan != "free" && Lower(plan) in PaidPlans
    ensures var pay := OfferedPayment(u, plan, token);
      var offer := PaymentOffer(catalog, lang, pay);
      offer.markup.Inline? && offer.markup.rows[0][0].action == PlanCheck(pay.paymentId)
      && ParseCallback(CallbackData(PlanCheck(pay.paymentId))) == PlanCheck(pay.paymentId)
      && PaidUpgrade(status, PendingOf(pay), pay.paymentId) == (if status == Paid then Some(Lower(plan)) else None)
  {
    CallbackRoundTrip(PlanCheck(OfferedPayment(u, plan, token).paymentId));
  }

  /** The rows of users other than `u` are the same in both maps. */
  ghost predicate OthersSame(states1: map<StateKey, Stored>, states2: map<StateKey, Stored>, u: int) {
    forall k: StateKey :: k.0 != u ==> (k in states1 <==> k in states2) && (k in states1 ==> states1[k] == states2[k])
  }

  /**
   * How a callback may change the profile columns that are not UI
   * bookkeeping: the language and the currency only through an accepted
   * `set:` value, the plan only to "free" by `plan:select:free` or to a paid
   * plan by the root admin's `admin:give:`, and the flags only by the latter.
   */
  ghost predicate SettingsFollow(catalog: Catalog, adminUserId: Option<int>, u: int, c: Callback, p0: Profile, p1: Profile) {
    (p1.language != p0.language ==> c.SetLanguage? && c.code in catalog && p1.language == c.code)
    && (p1.currency != p0.currency ==> c.SetCurrency? && c.code in CurrencyChoices && p1.currency == c.code)
    && (p1.plan != p0.plan ==>
          p1.plan in SoldPlans && (c == PlanSelect("free") || (c.AdminGive? && IsRootAdmin(adminUserId, u))))
    && (p1.isAdmin != p0.isAdmin || p1.isBanned != p0.isBanned ==> c.AdminGive? && IsRootAdmin(adminUserId, u))
  }

  /**
   * What a callback may do to the store: touch only the pressing user's
   * rows, change settings only as `SettingsFollow` allows, and leave the
   * states alone for a non-root `admin:` press and for presses that
   * dispatch to nothing.
   */
  ghost predicate Contained(catalog: Catalog, adminUserId: Option<int>, u: int, c: Callback,
                            users0: map<int, Profile>, users1: map<int, Profile>,
                            states0: map<StateKey, Stored>, states1: map<StateKey, Stored>) {
    SameExcept(users0, users1, u) && OthersSame(states0, states1, u)
    && SettingsFollow(catalog, adminUserId, u, c, ProfileIn(users0, u), ProfileIn(users1, u))
    && (IsAdminCallback(c) && !IsRootAdmin(adminUserId, u) ==> states1 == states0)
    && (c.AdminOther? ==> states1 == states0)
    && (c.SignalAction? || c.Unrouted? ==> states1 == states0 && users1 == users0)
  }

  /** A press whose only profile write is `q` followed by the UI bookkeeping stays contained. */
  lemma UiWriteContained(catalog: Catalog, adminUserId: Option<int>, u: int, c: Callback,
                         users0: map<int, Profile>, states0: map<StateKey, Stored>, states1: map<StateKey, Stored>,
                         q: Profile, chatId: int, n: int)
    requires OthersSame(states0, states1, u)
    requires SettingsFollow(catalog, adminUserId, u, c, ProfileIn(users0, u), q)
    requires IsAdminCallback(c) && !IsRootAdmin(adminUserId, u) ==> states1 == states0
    requires !(c.SignalAction? || c.Unrouted?) && (c.AdminOther? ==> states1 == states0)
    ensures Contained(catalog, adminUserId, u, c, users0, users0[u := WithLastUi(q, chatId, n)], states0, states1)
  {
    var users1 := users0[u := WithLastUi(q, chatId, n)];
    assert ProfileIn(users1, u) == WithLastUi(q, chatId, n);
    assert SameExcept(users0, users1, u);
  }

  /** A press that ends in `show_screen` with profile `q` stays contained. */
  lemma ShowContained(catalog: Catalog, adminUserId: Option<int>, u: int, c: Callback, users0: map<int, Profile>,
                      creds0: map<int, CredRow>, states0: map<StateKey, Stored>, q: Profile,
                      screen: string, push: bool, clear: bool, chatId: int, n: int)
    requires "ru" in catalog
    requires SettingsFollow(catalog, adminUserId, u, c, ProfileIn(users0, u), q)
    requires !(c.SignalAction? || c.Unrouted? || IsAdminCallback(c))
    ensures Contained(catalog, adminUserId, u, c, users0, users0[u := WithLastUi(q, chatId, n)], states0,
                      ShowSpec(catalog, adminUserId, u, q, creds0, states0, screen, push, clear).states)
  {
    ShowSpecMeaning(catalog, adminUserId, u, q, creds0, states0, screen, push, clear);
    UiWriteContained(catalog, adminUserId, u, c, users0, states0,
                     ShowSpec(catalog, adminUserId, u, q, creds0, states0, screen, push, clear).states, q, chatId, n);
  }

  /** `nav:back` stays contained. */
  lemma BackContained(catalog: Catalog, adminUserId: Option<int>, u: int, users0: map<int, Profile>,
                      creds0: map<int, CredRow>, states0: map<StateKey, Stored>, chatId: int, n: int)
    requires "ru" in catalog
    ensures var p := ProfileIn(users0, u);
      Contained(catalog, adminUserId, u, NavBack, users0, users0[u := WithLastUi(p, chatId, n)], states0,
                BackSpec(catalog, adminUserId, u, p, creds0, states0).states)
  {
    var p := ProfileIn(users0, u);
    BackSpecMeaning(catalog, adminUserId, u, p, creds0, states0);
    UiWriteContained(catalog, adminUserId, u, NavBack, users0, states0,
                     BackSpec(catalog, adminUserId, u, p, creds0, states0).states, p, chatId, n);
  }

  /** The root admin's `admin:give:` stays contained. */
  lemma GiveContained(catalog: Catalog, adminUserId: Option<int>, u: int, c: Callback, users0: map<int, Profile>,
                      creds0: map<int, CredRow>, states0: map<StateKey, Stored>, chatId: int, n: int)
    requires "ru" in catalog && c.AdminGive? && c.plan in PaidPlans && IsRootAdmin(adminUserId, u)
    ensures var e := GivePress(catalog, adminUserId, u, chatId, c.plan, users0, creds0, states0, n);
      Contained(catalog, adminUserId, u, c, users0, e.users, states0, e.states)
  {
    var q := ProfileIn(users0, u).(plan := c.plan, isAdmin := 1, isBanned := 0);
    var flowed := states0[(u, "admin_flow") := Json(Null)];
    ShowSpecMeaning(catalog, adminUserId, u, WithLastUi(q, chatId, n), creds0, flowed, "home", false, true);
    var r := ShowSpec(catalog, adminUserId, u, WithLastUi(q, chatId, n), creds0, flowed, "home", false, true);
    assert OthersSame(states0, r.states, u);
    SetTwice(users0, u, WithLastUi(q, chatId, n), WithLastUi(WithLastUi(q, chatId, n), chatId, n + 1));
    assert WithLastUi(WithLastUi(q, chatId, n), chatId, n + 1) == WithLastUi(q, chatId, n + 1);
    UiWriteContained(catalog, adminUserId, u, c, users0, states0, r.states, q, chatId, n + 1);
  }

  /** The users table after a moderation command's write to `target`. */
  function ModeratedUsers(users: map<int, Profile>, target: int, cmd: Moderation): map<int, Profile> {
    match cmd
    case Ban => users[target := ProfileIn(users, target).(isBanned := 1)]
    case Unban => users[target := ProfileIn(users, target).(isBanned := 0)]
    case AddAdmin => users[target := ProfileIn(users, target).(isAdmin := 1)]
    case RemoveAdmin => users[target := ProfileIn(users, target).(isAdmin := 0)]
    case Reset => users - {target}
  }

  /**
   * What a moderation command leaves behind once the admin has been sent the
   * reply: the target's flag is set, or the target reads as a new user; no
   * third user is touched.
   */
  lemma ModerationEffect(users: map<int, Profile>, u: int, target: int, cmd: Moderation, chatId: int, n: int)
    ensures var m := ModeratedUsers(Ensured(users, u), target, cmd);
      var fin := m[u := WithLastUi(ProfileIn(m, u), chatId, n)];
      (cmd == Ban ==> ProfileIn(fin, target).isBanned == 1)
      && (cmd == Unban ==> ProfileIn(fin, target).isBanned == 0)
      && (cmd == AddAdmin ==> ProfileIn(fin, target).isAdmin == 1)
      && (cmd == RemoveAdmin ==> ProfileIn(fin, target).isAdmin == 0)
      && (cmd != Reset ==> SameSettings(ProfileIn(fin, target), ProfileIn(users, target).(
            isBanned := ProfileIn(fin, target).isBanned, isAdmin := ProfileIn(fin, target).isAdmin)))
      && (cmd == Reset ==> SameSettings(ProfileIn(fin, target), DefaultProfile) && (target != u ==> target !in fin))
      && (forall v :: v != u && v != target ==> (v in fin <==> v in users) && (v in users ==> fin[v] == users[v]))
  {
  }

  // ---------------------------------------------------------------------------
  // what a button press does

  /**
   * What a press leaves behind: the users and states tables, what was asked
   * of Telegram after the clicked message was deleted, and how many messages
   * were sent.
   */
  datatype Effect = Effect(users: map<int, Profile>, states: map<StateKey, Stored>, events: seq<Event>, sends: nat)

  /** One `send_ui` of `ui` while the user's profile is `q`, with the states as `states`. */
  function SentOnce(users: map<int, Profile>, states: map<StateKey, Stored>, u: int, chatId: int, n: int,
                    q: Profile, ui: Rendered): (r: Effect)
    ensures r.sends == 1
  {
    Effect(users[u := WithLastUi(q, chatId, n)], states, UiEvents(q, chatId, n, ui), 1)
  }

  /** `show_screen(screen, push, clear)` once the user's profile has become `q`. */
  function ShowPress(catalog: Catalog, adminUserId: Option<int>, u: int, chatId: int, users: map<int, Profile>,
                     creds: map<int, CredRow>, states: map<StateKey, Stored>, n: int,
                     q: Profile, screen: string, push: bool, clear: bool): (r: Effect)
    requires "ru" in catalog
    ensures r.sends == 1
  {
    var r := ShowSpec(catalog, adminUserId, u, q, creds, states, screen, push, clear);
    SentOnce(users, r.states, u, chatId, n, q, r.ui)
  }

  /** `nav:home`, `nav:back` and `nav:<screen>`. */
  function NavPress(catalog: Catalog, adminUserId: Option<int>, u: int, chatId: int, c: Callback,
                    users: map<int, Profile>, creds: map<int, CredRow>, states: map<StateKey, Stored>, n: int): (r: Effect)
    requires "ru" in catalog && (c.NavHome? || c.NavBack? || c.NavTo?)
    ensures r.sends == 1
  {
    var p := ProfileIn(users, u);
    if c.NavHome? then ShowPress(catalog, adminUserId, u, chatId, users, creds, states, n, p, "home", false, true)
    else if c.NavBack? then
      var r := BackSpec(catalog, adminUserId, u, p, creds, states);
      SentOnce(users, r.states, u, chatId, n, p, r.ui)
    else ShowPress(catalog, adminUserId, u, chatId, users, creds, states, n, p, c.screen, true, false)
  }

  /** `set:lang:<code>` and `set:currency:<code>`: the accepted setting, then settings without push. */
  function SettingPress(catalog: Catalog, adminUserId: Option<int>, u: int, chatId: int, c: Callback,
                        users: map<int, Profile>, creds: map<int, CredRow>, states: map<StateKey, Stored>, n: int): (r: Effect)
    requires "ru" in catalog && (c.SetLanguage? || c.SetCurrency?)
    ensures r.sends == 1
  {
    var q := WithSetting(catalog, ProfileIn(users, u), c);
    ShowPress(catalog, adminUserId, u, chatId, users, creds, states, n, q, "settings", false, false)
  }

  /** The prompt `admin:flow:<action>` sends, with a home control. */
  function AdminPrompt(catalog: Catalog, lang: string, action: string): Rendered
    requires "ru" in catalog
  {
    Rendered(Plain(Tr(catalog, lang, AdminPromptKey(action), map[])), Inline(NavKb(catalog, lang, false, true)))
  }

  /**
   * The root admin's `admin:give:<plan>` for a paid plan: plan, admin flag and
   * unban on the admin's own profile, the flow cleared, "admin_done", then home.
   */
  function GivePress(catalog: Catalog, adminUserId: Option<int>, u: int, chatId: int, plan: string,
                     users: map<int, Profile>, creds: map<int, CredRow>, states: map<StateKey, Stored>, n: int): (r: Effect)
    requires "ru" in catalog
    ensures r.sends == 2
  {
    var p := ProfileIn(users, u);
    var q := p.(plan := plan, isAdmin := 1, isBanned := 0);
    var done := SentOnce(users, states[(u, "admin_flow") := Json(Null)], u, chatId, n, q, Message(catalog, p.language, "admin_done"));
    var home := ShowPress(catalog, adminUserId, u, chatId, done.users, creds, done.states, n + 1,
                          WithLastUi(q, chatId, n), "home", false, true);
    Effect(home.users, home.states, done.events + home.events, 2)
  }

  /** The root admin's `admin:flow:<action>`: the flow is stored and its prompt sent. */
  function FlowPress(catalog: Catalog, u: int, chatId: int, action: string,
                     users: map<int, Profile>, states: map<StateKey, Stored>, n: int): (r: Effect)
    requires "ru" in catalog
    ensures r.sends == 1
  {
    var p := ProfileIn(users, u);
    SentOnce(users, states[(u, "admin_flow") := Json(AdminFlow(action))], u, chatId, n, p, AdminPrompt(catalog, p.language, action))
  }

  /**
   * The `admin:` branches: "admin_denied" for anyone but the root admin; for
   * the root admin a give of a paid plan, or a flow start; any other `admin:`
   * data, and a give of another plan, only ensure the admin's row.
   */
  function AdminPress(catalog: Catalog, adminUserId: Option<int>, u: int, chatId: int, c: Callback,
                      users: map<int, Profile>, creds: map<int, CredRow>, states: map<StateKey, Stored>, n: int): (r: Effect)
    requires "ru" in catalog && IsAdminCallback(c)
    ensures r.sends <= 2
    ensures r.sends == 0 ==> r.states == states && r.events == []
  {
    var p := ProfileIn(users, u);
    if !IsRootAdmin(adminUserId, u) then SentOnce(users, states, u, chatId, n, p, Message(catalog, p.language, "admin_denied"))
    else if c.AdminGive? && c.plan in PaidPlans then GivePress(catalog, adminUserId, u, chatId, c.plan, users, creds, states, n)
    else if c.AdminFlowStart? then FlowPress(catalog, u, chatId, c.action, users, states, n)
    else Effect(Ensured(users, u), states, [], 0)
  }

  /** `plan:select:<plan>`: "free" at once, an unknown plan back to plans, a paid plan offered. */
  function SelectPress(catalog: Catalog, adminUserId: Option<int>, u: int, chatId: int, plan: string, token: string,
                       users: map<int, Profile>, creds: map<int, CredRow>, states: map<StateKey, Stored>, n: int): (r: Effect)
    requires "ru" in catalog && IsHexToken(token)
    ensures r.sends == 1
  {
    var p := ProfileIn(users, u);
    if plan == "free" then ShowPress(catalog, adminUserId, u, chatId, users, creds, states, n, p.(plan := "free"), "plans", false, false)
    else if Lower(plan) !in PaidPlans then ShowPress(catalog, adminUserId, u, chatId, users, creds, states, n, p, "plans", false, false)
    else
      var pay := OfferedPayment(u, plan, token);
      SentOnce(users, states[(u, "pending_payment") := Json(PendingOf(pay))], u, chatId, n, p,
               PaymentOffer(catalog, p.language, pay))
  }

  /** `plan:check:<payment_id>` once the provider has answered `status`. */
  function CheckPress(catalog: Catalog, u: int, chatId: int, paymentId: string, status: PaymentStatus,
                      users: map<int, Profile>, states: map<StateKey, Stored>, n: int): (r: Effect)
    requires "ru" in catalog
    ensures r.sends == 1
  {
    var p := ProfileIn(users, u);
    match PaidUpgrade(status, StateIn(states, u, "pending_payment", Null), paymentId)
    case Some(plan) =>
      SentOnce(users, states[(u, "pending_payment") := Json(Null)], u, chatId, n, p.(plan := plan),
               Rendered(Plain(Tr(catalog, p.language, "pay_check_paid", map["plan" := Upper(plan)])), NoMarkup))
    case None => SentOnce(users, states, u, chatId, n, p, Message(catalog, p.language, "pay_check_pending"))
  }

  /**
   * What `callback_router` does with a press once the clicked message is
   * deleted, branch by branch. `action:signal` raises before anything
   * happens, and data no branch matches does nothing.
   */
  function Press(catalog: Catalog, adminUserId: Option<int>, u: int, chatId: int, c: Callback, token: string,
                 users: map<int, Profile>, creds: map<int, CredRow>, states: map<StateKey, Stored>, n: int): (r: Effect)
    requires "ru" in catalog && IsHexToken(token)
    ensures r.sends <= 2
    ensures r.sends == 0 ==> r.states == states && r.events == []
  {
    if c.NavHome? || c.NavBack? || c.NavTo? then NavPress(catalog, adminUserId, u, chatId, c, users, creds, states, n)
    else if c.SetLanguage? || c.SetCurrency? then SettingPress(catalog, adminUserId, u, chatId, c, users, creds, states, n)
    else if IsAdminCallback(c) then AdminPress(catalog, adminUserId, u, chatId, c, users, creds, states, n)
    else if c.PlanSelect? then SelectPress(catalog, adminUserId, u, chatId, c.plan, token, users, creds, states, n)
    else if c.PlanCheck? then CheckPress(catalog, u, chatId, c.paymentId, CheckCryptoPaymentStatus(c.paymentId), users, states, n)
    else Effect(users, states, [], 0)
  }

  /**
   * For a user who may navigate, `nav:home`, `nav:back` and `nav:<screen>`
   * are the `Home`, `Back` and pushing `Open` steps of the navigation state
   * machine; a blocked user's `nav:home` and `nav:<screen>` move nothing.
   * Each sends exactly one message.
   */
  lemma NavPressSteps(catalog: Catalog, adminUserId: Option<int>, u: int, chatId: int, c: Callback,
                      users: map<int, Profile>, creds: map<int, CredRow>, states: map<StateKey, Stored>, n: int)
    requires "ru" in catalog && (c.NavHome? || c.NavBack? || c.NavTo?)
    ensures var e := NavPress(catalog, adminUserId, u, chatId, c, users, creds, states, n);
      var s := NavOf(states, u);
      e.sends == 1
      && (!Blocked(adminUserId, ProfileIn(users, u), u) ==>
            NavOf(e.states, u) == (if c.NavHome? then Step(s, Home)
                                   else if c.NavBack? then Step(s, Back)
                                   else Step(s, Open(c.screen, true, false))))
      && (Blocked(adminUserId, ProfileIn(users, u), u) && !c.NavBack? ==> e.states == states)
  {
    var p := ProfileIn(users, u);
    if c.NavHome? {
      ShowSpecMeaning(catalog, adminUserId, u, p, creds, states, "home", false, true);
      ClearedHomeIsStart(NavOf(states, u));
    } else if c.NavBack? {
      BackSpecMeaning(catalog, adminUserId, u, p, creds, states);
    } else {
      ShowSpecMeaning(catalog, adminUserId, u, p, creds, states, c.screen, true, false);
    }
  }

  /** `admin:` reads the profile first; ensuring the row beforehand changes nothing. */
  lemma AdminPressEnsured(catalog: Catalog, adminUserId: Option<int>, u: int, chatId: int, c: Callback,
                          users: map<int, Profile>, creds: map<int, CredRow>, states: map<StateKey, Stored>, n: int)
    requires "ru" in catalog && IsAdminCallback(c)
    ensures AdminPress(catalog, adminUserId, u, chatId, c, Ensured(users, u), creds, states, n)
         == AdminPress(catalog, adminUserId, u, chatId, c, users, creds, states, n)
  {
    var p := ProfileIn(users, u);
    assert ProfileIn(Ensured(users, u), u) == p;
    if !IsRootAdmin(adminUserId, u) || c.AdminFlowStart? {
      EnsuredThenSet(users, u, WithLastUi(p, chatId, n));
    } else if c.AdminGive? && c.plan in PaidPlans {
      GivePressEnsured(catalog, adminUserId, u, chatId, c.plan, users, creds, states, n);
    } else {
      EnsureIdempotent(users, u);
    }
  }

  lemma GivePressEnsured(catalog: Catalog, adminUserId: Option<int>, u: int, chatId: int, plan: string,
                         users: map<int, Profile>, creds: map<int, CredRow>, states: map<StateKey, Stored>, n: int)
    requires "ru" in catalog
    ensures GivePress(catalog, adminUserId, u, chatId, plan, Ensured(users, u), creds, states, n)
         == GivePress(catalog, adminUserId, u, chatId, plan, users, creds, states, n)
  {
    var p := ProfileIn(users, u);
    assert ProfileIn(Ensured(users, u), u) == p;
    EnsuredThenSet(users, u, WithLastUi(p.(plan := plan, isAdmin := 1, isBanned := 0), chatId, n));
  }

  lemma NavPressContained(catalog: Catalog, adminUserId: Option<int>, u: int, chatId: int, c: Callback,
                          users: map<int, Profile>, creds: map<int, CredRow>, states: map<StateKey, Stored>, n: int)
    requires "ru" in catalog && (c.NavHome? || c.NavBack? || c.NavTo?)
    ensures var e := NavPress(catalog, adminUserId, u, chatId, c, users, creds, states, n);
      Contained(catalog, adminUserId, u, c, users, e.users, states, e.states)
  {
    var p := ProfileIn(users, u);
    if c.NavHome? {
      ShowContained(catalog, adminUserId, u, c, users, creds, states, p, "home", false, true, chatId, n);
    } else if c.NavBack? {
      BackContained(catalog, adminUserId, u, users, creds, states, chatId, n);
    } else {
      ShowContained(catalog, adminUserId, u, c, users, creds, states, p, c.screen, true, false, chatId, n);
    }
  }

  lemma SettingPressContained(catalog: Catalog, adminUserId: Option<int>, u: int, chatId: int, c: Callback,
                              users: map<int, Profile>, creds: map<int, CredRow>, states: map<StateKey, Stored>, n: int)
    requires "ru" in catalog && (c.SetLanguage? || c.SetCurrency?)
    ensures var e := SettingPress(catalog, adminUserId, u, chatId, c, users, creds, states, n);
      Contained(catalog, adminUserId, u, c, users, e.users, states, e.states)
  {
    var q := WithSetting(catalog, ProfileIn(users, u), c);
    ShowContained(catalog, adminUserId, u, c, users, creds, states, q, "settings", false, false, chatId, n);
  }

  lemma AdminPressContained(catalog: Catalog, adminUserId: Option<int>, u: int, chatId: int, c: Callback,
                            users: map<int, Profile>, creds: map<int, CredRow>, states: map<StateKey, Stored>, n: int)
    requires "ru" in catalog && IsAdminCallback(c)
    ensures var e := AdminPress(catalog, adminUserId, u, chatId, c, users, creds, states, n);
      Contained(catalog, adminUserId, u, c, users, e.users, states, e.states)
  {
    var p := ProfileIn(users, u);
    if !IsRootAdmin(adminUserId, u) {
      UiWriteContained(catalog, adminUserId, u, c, users, states, states, p, chatId, n);
    } else if c.AdminGive? && c.plan in PaidPlans {
      GiveContained(catalog, adminUserId, u, c, users, creds, states, chatId, n);
    } else if c.AdminFlowStart? {
      UiWriteContained(catalog, adminUserId, u, c, users, states,
                       states[(u, "admin_flow") := Json(AdminFlow(c.action))], p, chatId, n);
    } else {
      EnsureIdempotent(users, u);
      assert ProfileIn(Ensured(users, u), u) == p;
    }
  }

  lemma SelectPressContained(catalog: Catalog, adminUserId: Option<int>, u: int, chatId: int, plan: string, token: string,
                             users: map<int, Profile>, creds: map<int, CredRow>, states: map<StateKey, Stored>, n: int)
    requires "ru" in catalog && IsHexToken(token)
    ensures var e := SelectPress(catalog, adminUserId, u, chatId, plan, token, users, creds, states, n);
      Contained(catalog, adminUserId, u, PlanSelect(plan), users, e.users, states, e.states)
  {
    var p := ProfileIn(users, u);
    var c := PlanSelect(plan);
    if plan == "free" {
      ShowContained(catalog, adminUserId, u, c, users, creds, states, p.(plan := "free"), "plans", false, false, chatId, n);
    } else if Lower(plan) !in PaidPlans {
      ShowContained(catalog, adminUserId, u, c, users, creds, states, p, "plans", false, false, chatId, n);
    } else {
      var pay := OfferedPayment(u, plan, token);
      UiWriteContained(catalog, adminUserId, u, c, users, states,
                       states[(u, "pending_payment") := Json(PendingOf(pay))], p, chatId, n);
    }
  }

  lemma CheckPressContained(catalog: Catalog, adminUserId: Option<int>, u: int, chatId: int, paymentId: string,
                            users: map<int, Profile>, states: map<StateKey, Stored>, n: int)
    requires "ru" in catalog
    ensures var e := CheckPress(catalog, u, chatId, paymentId, CheckCryptoPaymentStatus(paymentId), users, states, n);
      Contained(catalog, adminUserId, u, PlanCheck(paymentId), users, e.users, states, e.states)
  {
    StubNeverUpgrades(paymentId, StateIn(states, u, "pending_payment", Null));
    UiWriteContained(catalog, adminUserId, u, PlanCheck(paymentId), users, states, states, ProfileIn(users, u), chatId, n);
  }

  /**
   * Every press stays contained: only the pressing user's rows change, and
   * settings, plan and flags only as `SettingsFollow` allows. A check never
   * upgrades, because the stub provider never reports a payment as paid.
   */
  lemma PressContained(catalog: Catalog, adminUserId: Option<int>, u: int, chatId: int, c: Callback, token: string,
                       users: map<int, Profile>, creds: map<int, CredRow>, states: map<StateKey, Stored>, n: int)
    requires "ru" in catalog && IsHexToken(token)
    ensures var e := Press(catalog, adminUserId, u, chatId, c, token, users, creds, states, n);
      Contained(catalog, adminUserId, u, c, users, e.users, states, e.states)
  {
    if c.NavHome? || c.NavBack? || c.NavTo? {
      NavPressContained(catalog, adminUserId, u, chatId, c, users, creds, states, n);
    } else if c.SetLanguage? || c.SetCurrency? {
      SettingPressContained(catalog, adminUserId, u, chatId, c, users, creds, states, n);
    } else if IsAdminCallback(c) {
      AdminPressContained(catalog, adminUserId, u, chatId, c, users, creds, states, n);
    } else if c.PlanSelect? {
      SelectPressContained(catalog, adminUserId, u, chatId, c.plan, token, users, creds, states, n);
    } else if c.PlanCheck? {
      CheckPressContained(catalog, adminUserId, u, chatId, c.paymentId, users, states, n);
    }
  }

  /** `query.message.chat_id`, or the user's own id when the press carries no message. */
  function ChatOf(clicked: Option<Clicked>, u: int): int {
    if clicked.Some? then clicked.value.chatId else u
  }

  /** The first thing `callback_router` does: delete the clicked message, if any. */
  function ClickedDelete(clicked: Option<Clicked>): seq<Event> {
    if clicked.Some? then [Deleted(clicked.value.chatId, clicked.value.messageId)] else []
  }

  /** The text of the payment amount, as Python prints a float such as `10.0`. */
  function AmountText(amount: int): string {
    DecimalString(amount) + ".0"
  }

  /** How a callback ended: handled, or with the TypeError of the `action:signal` call. */
  datatype Outcome = Handled | TypeErrorRaised

  /** The message a callback was attached to. */
  datatype Clicked = Clicked(chatId: int, messageId: int)

  datatype Moderation = Ban | Unban | AddAdmin | RemoveAdmin | Reset

  class UiBot {
    const db: LocalStore
    const gw: Gateway
    /** The Supabase client, null when it is not configured. */
    const sink: SignalSink?
    /** `ADMIN_USER_ID` as read at start-up. */
    const adminUserId: Option<int>
    /** `TRANSLATIONS` */
    const catalog: Catalog

    ghost predicate Valid()
      reads this, db
    {
      db.Valid() && "ru" in catalog
    }

    /** The store and the gateway ended as `e` says, and the credentials were not touched. */
    twostate predicate Performed(e: Effect)
      reads this, db, gw
    {
      db.users == e.users && db.states == e.states && db.creds == old(db.creds)
      && gw.log == old(gw.log) + e.events && gw.nextMessageId == old(gw.nextMessageId) + e.sends
    }

    constructor (db: LocalStore, gw: Gateway, sink: SignalSink?, adminUserId: Option<int>, catalog: Catalog)
      requires db.Valid() && "ru" in catalog
      ensures Valid()
      ensures this.db == db && this.gw == gw && this.sink == sink
      ensures this.adminUserId == adminUserId && this.catalog == catalog
    {
      this.db := db;
      this.gw := gw;
      this.sink := sink;
      this.adminUserId := adminUserId;
      this.catalog := catalog;
    }

    /** `send_ui`: replace the user's previous UI message by a new one and remember it. */
    method SendUi(u: int, chatId: int, ui: Rendered)
      requires Valid()
      modifies db, gw
      ensures Valid()
      ensures var p := ProfileIn(old(db.users), u);
        db.users == old(db.users)[u := WithLastUi(p, chatId, old(gw.nextMessageId))]
        && gw.log == old(gw.log) + UiEvents(p, chatId, old(gw.nextMessageId), ui)
      ensures gw.nextMessageId == old(gw.nextMessageId) + 1
      ensures db.creds == old(db.creds) && db.states == old(db.states)
    {
      var p := db.GetUserProfile(u);
      if Truthy(p.lastUiChatId) && Truthy(p.lastUiMessageId) {
        gw.DeleteMessage(p.lastUiChatId.value, p.lastUiMessageId.value);
      }
      var messageId := gw.SendMessage(chatId, ui.body, ui.markup);
      var fields := [LastUiChatId(Some(chatId)), LastUiMessageId(Some(messageId))];
      var p1 := ApplyField(p, fields[0]);
      assert ApplyFields(p, fields) == ApplyFields(p1, fields[1..]);
      assert fields[1..][1..] == [];
      assert ApplyFields(p1, fields[1..]) == ApplyField(p1, fields[1]);
      ghost var before := db.users;
      db.UpdateUserProfile(u, fields);
      assert db.users == before[u := WithLastUi(p, chatId, messageId)];
    }

    /** `_nav_stack` */
    method NavStack(u: int) returns (stack: seq<string>)
      requires Valid()
      modifies db
      ensures Valid()
      ensures stack == StackOf(old(db.states), u)
      ensures db.users == Ensured(old(db.users), u) && db.creds == old(db.creds) && db.states == old(db.states)
    {
      var v := db.GetUserState(u, "nav_stack", ScreenList([]));
      stack := if v.ScreenList? then v.screens else [];
    }

    /** `_current_screen` */
    method CurrentScreen(u: int) returns (screen: string)
      requires Valid()
      modifies db
      ensures Valid()
      ensures screen == CurrentOf(old(db.states), u)
      ensures db.users == Ensured(old(db.users), u) && db.creds == old(db.creds) && db.states == old(db.states)
    {
      var v := db.GetUserState(u, "current_screen", Str("home"));
      screen := if v.Str? then v.s else "home";
    }

    /** `render_screen`: reads the profile, the stack and, on home, the credentials. */
    method Render(u: int, screen: string) returns (ui: Rendered)
      requires Valid()
      modifies db
      ensures Valid()
      ensures ui == RenderScreen(catalog, u, ProfileIn(old(db.users), u), screen, StackOf(old(db.states), u),
                                 LoginPassword(Get(old(db.creds), u)).Some?)
      ensures db.users == Ensured(old(db.users), u) && db.creds == old(db.creds) && db.states == old(db.states)
    {
      var p := db.GetUserProfile(u);
      var stack := NavStack(u);
      var poConfigured := false;
      if screen == "home" {
        var creds := db.GetEncryptedCredentials(u);
        poConfigured := creds.Some?;
      }
      ui := RenderScreen(catalog, u, p, screen, stack, poConfigured);
    }

    /** The stack and current-screen writes of `show_screen` past its ban check. */
    method Navigate(u: int, screen: string, push: bool, clear: bool)
      requires Valid()
      modifies db
      ensures Valid()
      ensures db.states == ShowStates(old(db.states), u, screen, push, clear)
      ensures db.users == Ensured(old(db.users), u) && db.creds == old(db.creds)
    {
      if clear {
        db.SetUserState(u, "nav_stack", ScreenList([]));
      }
      var cur := CurrentScreen(u);
      if push && screen != cur {
        var stack := NavStack(u);
        db.SetUserState(u, "nav_stack", ScreenList(Last20(stack + [cur])));
      }
      db.SetUserState(u, "current_screen", Str(screen));
    }

    /** `show_screen` */
    method ShowScreen(u: int, chatId: int, screen: string, push: bool, clear: bool)
      requires Valid()
      modifies db, gw
      ensures Valid()
      ensures var p := ProfileIn(old(db.users), u);
        var r := ShowSpec(catalog, adminUserId, u, p, old(db.creds), old(db.states), screen, push, clear);
        db.states == r.states
        && db.users == old(db.users)[u := WithLastUi(p, chatId, old(gw.nextMessageId))]
        && gw.log == old(gw.log) + UiEvents(p, chatId, old(gw.nextMessageId), r.ui)
      ensures gw.nextMessageId == old(gw.nextMessageId) + 1
      ensures db.creds == old(db.creds)
    {
      db.EnsureUser(u);
      var p := db.GetUserProfile(u);
      if p.isBanned != 0 && !IsRootAdmin(adminUserId, u) {
        var q := db.GetUserProfile(u);
        SendUi(u, chatId, Message(catalog, q.language, "banned"));
        return;
      }
      Navigate(u, screen, push, clear);
      var ui := Render(u, screen);
      SendUi(u, chatId, ui);
    }

    /** `nav:back` */
    method OnNavBack(u: int, chatId: int)
      requires Valid()
      modifies db, gw
      ensures Valid()
      ensures var p := ProfileIn(old(db.users), u);
        var r := BackSpec(catalog, adminUserId, u, p, old(db.creds), old(db.states));
        db.states == r.states
        && db.users == old(db.users)[u := WithLastUi(p, chatId, old(gw.nextMessageId))]
        && gw.log == old(gw.log) + UiEvents(p, chatId, old(gw.nextMessageId), r.ui)
      ensures gw.nextMessageId == old(gw.nextMessageId) + 1
      ensures db.creds == old(db.creds)
    {
      var stack := NavStack(u);
      if stack != [] {
        var prev := stack[|stack| - 1];
        db.SetUserState(u, "nav_stack", ScreenList(stack[..|stack| - 1]));
        ShowScreen(u, chatId, prev, false, false);
      } else {
        ShowScreen(u, chatId, "home", false, true);
      }
    }

    /** The store write of `set:lang:` / `set:currency:`: only an accepted value is written. */
    method StoreSetting(u: int, c: Callback)
      requires Valid() && (c.SetLanguage? || c.SetCurrency?)
      modifies db
      ensures Valid()
      ensures db.users == if SettingAccepted(catalog, c)
                          then old(db.users)[u := WithSetting(catalog, ProfileIn(old(db.users), u), c)]
                          else old(db.users)
      ensures db.creds == old(db.creds) && db.states == old(db.states)
    {
      if SettingAccepted(catalog, c) {
        var field := if c.SetLanguage? then Language(c.code) else Currency(c.code);
        ghost var p := ProfileIn(db.users, u);
        assert ApplyFields(p, [field]) == ApplyFields(ApplyField(p, field), []);
        db.UpdateUserProfile(u, [field]);
      }
    }

    /** `set:lang:<code>` and `set:currency:<code>`: store an accepted value, then show settings. */
    method OnSetting(u: int, chatId: int, c: Callback)
      requires Valid() && (c.SetLanguage? || c.SetCurrency?)
      modifies db, gw
      ensures Valid()
      ensures var q := WithSetting(catalog, ProfileIn(old(db.users), u), c);
        var r := ShowSpec(catalog, adminUserId, u, q, old(db.creds), old(db.states), "settings", false, false);
        db.states == r.states
        && db.users == old(db.users)[u := WithLastUi(q, chatId, old(gw.nextMessageId))]
        && gw.log == old(gw.log) + UiEvents(q, chatId, old(gw.nextMessageId), r.ui)
      ensures gw.nextMessageId == old(gw.nextMessageId) + 1
      ensures db.creds == old(db.creds)
    {
      ghost var q := WithSetting(catalog, ProfileIn(db.users, u), c);
      StoreSetting(u, c);
      ghost var users1 := db.users;
      assert ProfileIn(users1, u) == q;
      ShowScreen(u, chatId, "settings", false, false);
      assert users1[u := WithLastUi(q, chatId, old(gw.nextMessageId))] == old(db.users)[u := WithLastUi(q, chatId, old(gw.nextMessageId))];
    }

    /** `plan:select:<plan>` */
    method OnPlanSelect(u: int, chatId: int, plan: string, token: string)
      requires Valid() && IsHexToken(token)
      modifies db, gw
      ensures Valid()
      ensures var p := ProfileIn(old(db.users), u);
        var n := old(gw.nextMessageId);
        if plan == "free" then
          var q := p.(plan := "free");
          var r := ShowSpec(catalog, adminUserId, u, q, old(db.creds), old(db.states), "plans", false, false);
          db.states == r.states && db.users == old(db.users)[u := WithLastUi(q, chatId, n)]
          && gw.log == old(gw.log) + UiEvents(q, chatId, n, r.ui)
        else if Lower(plan) !in PaidPlans then
          var r := ShowSpec(catalog, adminUserId, u, p, old(db.creds), old(db.states), "plans", false, false);
          db.states == r.states && db.users == old(db.users)[u := WithLastUi(p, chatId, n)]
          && gw.log == old(gw.log) + UiEvents(p, chatId, n, r.ui)
        else
          var pay := OfferedPayment(u, plan, token);
          db.states == old(db.states)[(u, "pending_payment") := Json(PendingOf(pay))]
          && db.users == old(db.users)[u := WithLastUi(p, chatId, n)]
          && gw.log == old(gw.log) + UiEvents(p, chatId, n, PaymentOffer(catalog, p.language, pay))
      ensures gw.nextMessageId == old(gw.nextMessageId) + 1
      ensures db.creds == old(db.creds)
    {
      ghost var users0 := db.users;
      var p := db.GetUserProfile(u);
      if plan == "free" {
        SelectFree(u, chatId, p);
        assert Ensured(users0, u)[u := WithLastUi(p.(plan := "free"), chatId, old(gw.nextMessageId))]
            == users0[u := WithLastUi(p.(plan := "free"), chatId, old(gw.nextMessageId))];
        return;
      }
      var lowered := Lower(plan);
      if lowered !in PaidPlans {
        ShowScreen(u, chatId, "plans", false, false);
        assert Ensured(users0, u)[u := WithLastUi(p, chatId, old(gw.nextMessageId))] == users0[u := WithLastUi(p, chatId, old(gw.nextMessageId))];
        return;
      }
      OfferPayment(u, chatId, p, plan, token);
      assert Ensured(users0, u)[u := WithLastUi(p, chatId, old(gw.nextMessageId))] == users0[u := WithLastUi(p, chatId, old(gw.nextMessageId))];
    }

    /** `plan:select:free`: the plan becomes "free", then the plans screen. */
    method SelectFree(u: int, chatId: int, p: Profile)
      requires Valid() && u in db.users && db.users[u] == p
      modifies db, gw
      ensures Valid()
      ensures var q := p.(plan := "free");
        var r := ShowSpec(catalog, adminUserId, u, q, old(db.creds), old(db.states), "plans", false, false);
        db.states == r.states && db.users == old(db.users)[u := WithLastUi(q, chatId, old(gw.nextMessageId))]
        && gw.log == old(gw.log) + UiEvents(q, chatId, old(gw.nextMessageId), r.ui)
      ensures gw.nextMessageId == old(gw.nextMessageId) + 1
      ensures db.creds == old(db.creds)
    {
      ghost var q := p.(plan := "free");
      assert ApplyFields(p, [Plan("free")]) == ApplyFields(ApplyField(p, Plan("free")), []);
      db.UpdateUserProfile(u, [Plan("free")]);
      assert db.users == old(db.users)[u := q];
      ShowScreen(u, chatId, "plans", false, false);
      assert db.users == old(db.users)[u := q][u := WithLastUi(q, chatId, old(gw.nextMessageId))];
    }

    /** The paid branch of `plan:select:`: create the payment, remember it, offer it. */
    method OfferPayment(u: int, chatId: int, p: Profile, plan: string, token: string)
      requires Valid() && IsHexToken(token) && plan != "free" && Lower(plan) in PaidPlans
      requires u in db.users && db.users[u] == p
      modifies db, gw
      ensures Valid()
      ensures var pay := OfferedPayment(u, plan, token);
        db.states == old(db.states)[(u, "pending_payment") := Json(PendingOf(pay))]
        && db.users == old(db.users)[u := WithLastUi(p, chatId, old(gw.nextMessageId))]
        && gw.log == old(gw.log) + UiEvents(p, chatId, old(gw.nextMessageId), PaymentOffer(catalog, p.language, pay))
      ensures gw.nextMessageId == old(gw.nextMessageId) + 1
      ensures db.creds == old(db.creds)
    {
      var lowered := Lower(plan);
      var amount := PlanPrice(lowered);
      var pay := CreateCryptoPayment(u, lowered, amount, token);
      db.SetUserState(u, "pending_payment", PendingPayment(pay.paymentId, lowered, amount, pay.currency));
      SendUi(u, chatId, PaymentOffer(catalog, p.language, pay));
    }

    /** The decision of `plan:check:` once the provider's status is known. */
    method ApplyPaymentCheck(u: int, chatId: int, lang: string, pending: Value, paymentId: string, status: PaymentStatus)
      requires Valid()
      modifies db, gw
      ensures Valid()
      ensures var p := ProfileIn(old(db.users), u);
        var n := old(gw.nextMessageId);
        match PaidUpgrade(status, pending, paymentId)
        case Some(plan) =>
          var q := p.(plan := plan);
          db.states == old(db.states)[(u, "pending_payment") := Json(Null)]
          && db.users == old(db.users)[u := WithLastUi(q, chatId, n)]
          && gw.log == old(gw.log) + UiEvents(q, chatId, n,
               Rendered(Plain(Tr(catalog, lang, "pay_check_paid", map["plan" := Upper(plan)])), NoMarkup))
        case None =>
          db.states == old(db.states)
          && db.users == old(db.users)[u := WithLastUi(p, chatId, n)]
          && gw.log == old(gw.log) + UiEvents(p, chatId, n, Message(catalog, lang, "pay_check_pending"))
      ensures gw.nextMessageId == old(gw.nextMessageId) + 1
      ensures db.creds == old(db.creds)
    {
      match PaidUpgrade(status, pending, paymentId)
      case Some(plan) =>
        ghost var p := ProfileIn(db.users, u);
        assert ApplyFields(p, [Plan(plan)]) == ApplyFields(ApplyField(p, Plan(plan)), []);
        db.UpdateUserProfile(u, [Plan(plan)]);
        db.SetUserState(u, "pending_payment", Null);
        SendUi(u, chatId, Rendered(Plain(Tr(catalog, lang, "pay_check_paid", map["plan" := Upper(plan)])), NoMarkup));
      case None =>
        SendUi(u, chatId, Message(catalog, lang, "pay_check_pending"));
    }

    /** `plan:check:<payment_id>`: with the stub provider the answer is always "pending". */
    method OnPlanCheck(u: int, chatId: int, paymentId: string)
      requires Valid()
      modifies db, gw
      ensures Valid()
      ensures var p := ProfileIn(old(db.users), u);
        db.states == old(db.states)
        && db.users == old(db.users)[u := WithLastUi(p, chatId, old(gw.nextMessageId))]
        && gw.log == old(gw.log) + UiEvents(p, chatId, old(gw.nextMessageId), Message(catalog, p.language, "pay_check_pending"))
      ensures gw.nextMessageId == old(gw.nextMessageId) + 1
      ensures db.creds == old(db.creds)
    {
      var pending := db.GetUserState(u, "pending_payment", Null);
      var p := db.GetUserProfile(u);
      var status := CheckCryptoPaymentStatus(paymentId);
      StubNeverUpgrades(paymentId, pending);
      ApplyPaymentCheck(u, chatId, p.language, pending, paymentId, status);
    }

    /**
     * The `admin:` branches of `callback_router`. Anyone but the root admin
     * is refused and nothing but the UI bookkeeping changes.
     */
    method OnAdmin(u: int, chatId: int, c: Callback)
      requires Valid() && IsAdminCallback(c)
      modifies db, gw
      ensures Valid()
      ensures Performed(AdminPress(catalog, adminUserId, u, chatId, c, old(db.users), old(db.creds), old(db.states),
                                   old(gw.nextMessageId)))
    {
      ghost var n := gw.nextMessageId;
      var p := db.GetUserProfile(u);
      if !IsRootAdmin(adminUserId, u) {
        SendUi(u, chatId, Message(catalog, p.language, "admin_denied"));
        EnsuredThenSet(old(db.users), u, WithLastUi(p, chatId, n));
      } else {
        RootAdmin(u, chatId, c, p);
        AdminPressEnsured(catalog, adminUserId, u, chatId, c, old(db.users), old(db.creds), old(db.states), n);
      }
    }

    /** The `admin:` branches past the root check. */
    method RootAdmin(u: int, chatId: int, c: Callback, p: Profile)
      requires Valid() && IsAdminCallback(c) && IsRootAdmin(adminUserId, u)
      requires u in db.users && db.users[u] == p
      modifies db, gw
      ensures Valid()
      ensures Performed(AdminPress(catalog, adminUserId, u, chatId, c, old(db.users), old(db.creds), old(db.states),
                                   old(gw.nextMessageId)))
    {
      match c
      case AdminGive(plan) =>
        if plan in PaidPlans {
          GivePlan(u, chatId, p, plan);
        }
      case AdminFlowStart(action) =>
        StartAdminFlow(u, chatId, p, action);
      case AdminOther =>
    }

    /** `admin:flow:<action>` for the root admin: remember the action and prompt for its argument. */
    method StartAdminFlow(u: int, chatId: int, p: Profile, action: string)
      requires Valid() && u in db.users && db.users[u] == p
      modifies db, gw
      ensures Valid()
      ensures Performed(SentOnce(old(db.users), old(db.states)[(u, "admin_flow") := Json(AdminFlow(action))], u, chatId,
                                 old(gw.nextMessageId), p, AdminPrompt(catalog, p.language, action)))
    {
      db.SetUserState(u, "admin_flow", AdminFlow(action));
      SendUi(u, chatId, AdminPrompt(catalog, p.language, action));
    }

    /** `admin:give:<plan>` for the root admin: the plan goes to the admin's own profile. */
    method GivePlan(u: int, chatId: int, p: Profile, plan: string)
      requires Valid() && u in db.users && db.users[u] == p
      modifies db, gw
      ensures Valid()
      ensures Performed(GivePress(catalog, adminUserId, u, chatId, plan, old(db.users), old(db.creds), old(db.states),
                                  old(gw.nextMessageId)))
    {
      ghost var n := gw.nextMessageId;
      ghost var q := p.(plan := plan, isAdmin := 1, isBanned := 0);
      ghost var done := SentOnce(old(db.users), old(db.states)[(u, "admin_flow") := Json(Null)], u, chatId, n, q,
                                 Message(catalog, p.language, "admin_done"));
      AcknowledgeGrant(u, chatId, p, plan);
      assert ProfileIn(db.users, u) == WithLastUi(q, chatId, n);
      ghost var home := ShowPress(catalog, adminUserId, u, chatId, done.users, old(db.creds), done.states, n + 1,
                                  WithLastUi(q, chatId, n), "home", false, true);
      ShowScreen(u, chatId, "home", false, true);
      assert old(gw.log) + (done.events + home.events) == old(gw.log) + done.events + home.events;
    }

    /** The first half of `admin:give:`: the grant, then "admin_done". */
    method AcknowledgeGrant(u: int, chatId: int, p: Profile, plan: string)
      requires Valid() && u in db.users && db.users[u] == p
      modifies db, gw
      ensures Valid()
      ensures Performed(SentOnce(old(db.users), old(db.states)[(u, "admin_flow") := Json(Null)], u, chatId,
                                 old(gw.nextMessageId), p.(plan := plan, isAdmin := 1, isBanned := 0),
                                 Message(catalog, p.language, "admin_done")))
    {
      ghost var q := p.(plan := plan, isAdmin := 1, isBanned := 0);
      GrantPlan(u, p, plan);
      assert ProfileIn(db.users, u) == q;
      SendUi(u, chatId, Message(catalog, p.language, "admin_done"));
      SetTwice(old(db.users), u, q, WithLastUi(q, chatId, old(gw.nextMessageId)));
    }

    /** The store writes of `admin:give:`: plan, admin and unbanned flags, and a cleared admin flow. */
    method GrantPlan(u: int, p: Profile, plan: string)
      requires Valid() && u in db.users && db.users[u] == p
      modifies db
      ensures Valid()
      ensures db.users == old(db.users)[u := p.(plan := plan, isAdmin := 1, isBanned := 0)]
      ensures db.states == old(db.states)[(u, "admin_flow") := Json(Null)]
      ensures db.creds == old(db.creds)
    {
      var fields := [Plan(plan), IsAdmin(1), IsBanned(0)];
      ghost var p1 := ApplyField(p, Plan(plan));
      ghost var p2 := ApplyField(p1, IsAdmin(1));
      assert ApplyFields(p, fields) == ApplyFields(p1, fields[1..]);
      assert ApplyFields(p1, fields[1..]) == ApplyFields(p2, fields[1..][1..]);
      assert fields[1..][1..][1..] == [];
      assert ApplyFields(p2, fields[1..][1..]) == ApplyField(p2, IsBanned(0));
      db.UpdateUserProfile(u, fields);
      db.SetUserState(u, "admin_flow", Null);
    }

    /** `_handle_signal(user_id, chat_id)`: the gates in order, then one `signal_requests` row. */
    method HandleSignal(u: int, chatId: int)
      requires Valid()
      modifies db, gw, sink
      ensures Valid()
      ensures var p := ProfileIn(old(db.users), u);
        var gate := SignalGate(p.plan, LoginPassword(Get(old(db.creds), u)).Some?, sink != null);
        var submitted := gate == Submit && sink != null && sink.accepts;
        db.states == old(db.states) && db.creds == old(db.creds)
        && db.users == old(db.users)[u := WithLastUi(p, chatId, old(gw.nextMessageId))]
        && gw.log == old(gw.log) + UiEvents(p, chatId, old(gw.nextMessageId),
                                            Message(catalog, p.language, SignalMessageKey(gate, submitted)))
        && (sink != null ==>
              sink.rows == if submitted then old(sink.rows) + [SignalRequest(u, "latest_signal", "pending")] else old(sink.rows))
    {
      var p := db.GetUserProfile(u);
      if p.plan !in SignalPlans {
        SendUi(u, chatId, Message(catalog, p.language, "signal_requires_plan"));
        return;
      }
      var creds := db.GetEncryptedCredentials(u);
      if creds.None? {
        SendUi(u, chatId, Message(catalog, p.language, "signal_requires_po"));
        return;
      }
      if sink == null {
        SendUi(u, chatId, Message(catalog, p.language, "signal_supabase_off"));
        return;
      }
      var ok := sink.Insert(SignalRequest(u, "latest_signal", "pending"));
      SendUi(u, chatId, Message(catalog, p.language, if ok then "signal_sent" else "signal_supabase_off"));
    }

    /** `/signal`: delete the command message, then `_handle_signal`. */
    method SignalCommand(u: int, chatId: int, commandMessage: Option<int>)
      requires Valid()
      modifies db, gw, sink
      ensures Valid()
      ensures var p := ProfileIn(old(db.users), u);
        var gate := SignalGate(p.plan, LoginPassword(Get(old(db.creds), u)).Some?, sink != null);
        var submitted := gate == Submit && sink != null && sink.accepts;
        var n := old(gw.nextMessageId);
        db.states == old(db.states) && db.creds == old(db.creds)
        && db.users == old(db.users)[u := WithLastUi(p, chatId, n)]
        && gw.log == old(gw.log) + (if commandMessage.Some? then [Deleted(chatId, commandMessage.value)] else [])
                     + UiEvents(p, chatId, n, Message(catalog, p.language, SignalMessageKey(gate, submitted)))
        && (sink != null ==>
              sink.rows == if submitted then old(sink.rows) + [SignalRequest(u, "latest_signal", "pending")] else old(sink.rows))
    {
      if commandMessage.Some? {
        gw.DeleteMessage(chatId, commandMessage.value);
      }
      HandleSignal(u, chatId);
    }

    /**
     * `/start`: ensure the user, record the root admin's admin flag, delete
     * the command message, then show home with the stack cleared.
     */
    method StartCommand(u: int, chatId: int, commandMessage: Option<int>)
      requires Valid()
      modifies db, gw
      ensures Valid()
      ensures var p := ProfileIn(old(db.users), u);
        var q := if IsRootAdmin(adminUserId, u) then p.(isAdmin := 1) else p;
        var n := old(gw.nextMessageId);
        var r := ShowSpec(catalog, adminUserId, u, q, old(db.creds), old(db.states), "home", false, true);
        db.users == old(db.users)[u := WithLastUi(q, chatId, n)] && db.states == r.states && db.creds == old(db.creds)
        && gw.log == old(gw.log) + (if commandMessage.Some? then [Deleted(chatId, commandMessage.value)] else [])
                     + UiEvents(q, chatId, n, r.ui)
        && gw.nextMessageId == n + 1
      ensures !Blocked(adminUserId, ProfileIn(old(db.users), u), u) ==> NavOf(db.states, u) == Start
    {
      ghost var p := ProfileIn(db.users, u);
      ghost var q := if IsRootAdmin(adminUserId, u) then p.(isAdmin := 1) else p;
      db.EnsureUser(u);
      if IsRootAdmin(adminUserId, u) {
        assert ApplyFields(p, [IsAdmin(1)]) == ApplyFields(ApplyField(p, IsAdmin(1)), []);
        db.UpdateUserProfile(u, [IsAdmin(1)]);
      }
      ghost var users1 := db.users;
      assert users1 == Ensured(old(db.users), u)[u := q];
      if commandMessage.Some? {
        gw.DeleteMessage(chatId, commandMessage.value);
      }
      ShowScreen(u, chatId, "home", false, true);
      SetTwice(Ensured(old(db.users), u), u, q, WithLastUi(q, chatId, old(gw.nextMessageId)));
      EnsuredThenSet(old(db.users), u, WithLastUi(q, chatId, old(gw.nextMessageId)));
      ShowSpecMeaning(catalog, adminUserId, u, q, old(db.creds), old(db.states), "home", false, true);
      ClearedHomeIsStart(NavOf(old(db.states), u));
    }

    /** `/ban_user`, `/unban_user`, `/add_admin`, `/remove_admin`, `/reset_user`. */
    method ModerationCommand(u: int, chatId: int, cmd: Moderation, args: seq<string>)
      requires Valid()
      modifies db, gw
      ensures Valid()
      ensures var p := ProfileIn(old(db.users), u);
        var n := old(gw.nextMessageId);
        var target := ParseTargetId(args);
        if !IsRootAdmin(adminUserId, u) then
          db.states == old(db.states) && db.creds == old(db.creds)
          && db.users == old(db.users)[u := WithLastUi(p, chatId, n)]
          && gw.log == old(gw.log) + UiEvents(p, chatId, n, Message(catalog, p.language, "admin_denied"))
        else if target.None? || target.value == 0 then
          db.states == old(db.states) && db.creds == old(db.creds)
          && db.users == old(db.users)[u := WithLastUi(p, chatId, n)]
          && gw.log == old(gw.log) + UiEvents(p, chatId, n, Message(catalog, p.language, "admin_bad_args"))
        else
          var m := ModeratedUsers(Ensured(old(db.users), u), target.value, cmd);
          db.users == m[u := WithLastUi(ProfileIn(m, u), chatId, n)]
          && db.states == (if cmd == Reset then DropUser(old(db.states), target.value) else old(db.states))
          && db.creds == (if cmd == Reset then old(db.creds) - {target.value} else old(db.creds))
          && gw.log == old(gw.log) + UiEvents(ProfileIn(m, u), chatId, n, Message(catalog, p.language, "admin_done"))
    {
      var p := db.GetUserProfile(u);
      if !IsRootAdmin(adminUserId, u) {
        SendUi(u, chatId, Message(catalog, p.language, "admin_denied"));
        return;
      }
      var target := ParseTargetId(args);
      if target.None? || target.value == 0 {
        SendUi(u, chatId, Message(catalog, p.language, "admin_bad_args"));
        return;
      }
      Moderate(target.value, cmd);
      SendUi(u, chatId, Message(catalog, p.language, "admin_done"));
    }

    /** The store write of a moderation command: `ensure_user` and one flag, or `reset_user_data`. */
    method Moderate(t: int, cmd: Moderation)
      requires Valid()
      modifies db
      ensures Valid()
      ensures db.users == ModeratedUsers(old(db.users), t, cmd)
      ensures db.states == (if cmd == Reset then DropUser(old(db.states), t) else old(db.states))
      ensures db.creds == (if cmd == Reset then old(db.creds) - {t} else old(db.creds))
    {
      if cmd == Reset {
        db.ResetUserData(t);
      } else {
        db.EnsureUser(t);
        var field := match cmd
          case Ban => IsBanned(1)
          case Unban => IsBanned(0)
          case AddAdmin => IsAdmin(1)
          case RemoveAdmin => IsAdmin(0);
        ghost var q := ProfileIn(db.users, t);
        assert ApplyFields(q, [field]) == ApplyFields(ApplyField(q, field), []);
        db.UpdateUserProfile(t, [field]);
      }
    }

    /** The `nav:` branches. */
    method RouteNav(u: int, chatId: int, c: Callback)
      requires Valid() && (c.NavHome? || c.NavBack? || c.NavTo?)
      modifies db, gw
      ensures Valid()
      ensures Performed(NavPress(catalog, adminUserId, u, chatId, c, old(db.users), old(db.creds), old(db.states),
                                 old(gw.nextMessageId)))
    {
      match c
      case NavHome => ShowScreen(u, chatId, "home", false, true);
      case NavBack => OnNavBack(u, chatId);
      case NavTo(screen) => ShowScreen(u, chatId, screen, true, false);
    }

    /** The `set:lang:` and `set:currency:` branches. */
    method RouteSetting(u: int, chatId: int, c: Callback)
      requires Valid() && (c.SetLanguage? || c.SetCurrency?)
      modifies db, gw
      ensures Valid()
      ensures Performed(SettingPress(catalog, adminUserId, u, chatId, c, old(db.users), old(db.creds), old(db.states),
                                     old(gw.nextMessageId)))
    {
      OnSetting(u, chatId, c);
    }

    /** The `plan:select:` branch. */
    method RouteSelect(u: int, chatId: int, plan: string, token: string)
      requires Valid() && IsHexToken(token)
      modifies db, gw
      ensures Valid()
      ensures Performed(SelectPress(catalog, adminUserId, u, chatId, plan, token, old(db.users), old(db.creds),
                                    old(db.states), old(gw.nextMessageId)))
    {
      OnPlanSelect(u, chatId, plan, token);
    }

    /** The `plan:check:` branch, with the provider's answer the stub gives. */
    method RouteCheck(u: int, chatId: int, paymentId: string)
      requires Valid()
      modifies db, gw
      ensures Valid()
      ensures Performed(CheckPress(catalog, u, chatId, paymentId, CheckCryptoPaymentStatus(paymentId), old(db.users),
                                   old(db.states), old(gw.nextMessageId)))
    {
      StubNeverUpgrades(paymentId, StateIn(db.states, u, "pending_payment", Null));
      OnPlanCheck(u, chatId, paymentId);
    }

    /** The dispatch of `callback_router` once the clicked message is gone. */
    method Dispatch(u: int, chatId: int, c: Callback, token: string) returns (outcome: Outcome)
      requires Valid() && IsHexToken(token)
      modifies db, gw
      ensures Valid()
      ensures outcome == TypeErrorRaised <==> c == SignalAction
      ensures Performed(Press(catalog, adminUserId, u, chatId, c, token, old(db.users), old(db.creds), old(db.states),
                              old(gw.nextMessageId)))
    {
      outcome := Handled;
      if c.NavHome? || c.NavBack? || c.NavTo? {
        RouteNav(u, chatId, c);
      } else if c.SetLanguage? || c.SetCurrency? {
        RouteSetting(u, chatId, c);
      } else if IsAdminCallback(c) {
        OnAdmin(u, chatId, c);
      } else if c.PlanSelect? {
        RouteSelect(u, chatId, c.plan, token);
      } else if c.PlanCheck? {
        RouteCheck(u, chatId, c.paymentId);
      } else if c.SignalAction? {
        outcome := TypeErrorRaised;
      }
    }

    /**
     * `callback_router`: delete the clicked message, then dispatch on the
     * data. `action:signal` passes `request_type` to `_handle_signal`, which
     * takes no such parameter, so that branch ends in a TypeError.
     */
    method CallbackRouter(u: int, clicked: Option<Clicked>, data: string, token: string) returns (outcome: Outcome)
      requires Valid() && IsHexToken(token)
      modifies db, gw
      ensures Valid()
      ensures outcome == TypeErrorRaised <==> ParseCallback(data) == SignalAction
      ensures var e := Press(catalog, adminUserId, u, ChatOf(clicked, u), ParseCallback(data), token,
                             old(db.users), old(db.creds), old(db.states), old(gw.nextMessageId));
        db.users == e.users && db.states == e.states && db.creds == old(db.creds)
        && gw.log == old(gw.log) + ClickedDelete(clicked) + e.events
        && gw.nextMessageId == old(gw.nextMessageId) + e.sends
      ensures Contained(catalog, adminUserId, u, ParseCallback(data), old(db.users), db.users, old(db.states), db.states)
    {
      var chatId := if clicked.Some? then clicked.value.chatId else u;
      if clicked.Some? {
        gw.DeleteMessage(chatId, clicked.value.messageId);
      }
      PressContained(catalog, adminUserId, u, chatId, ParseCallback(data), token,
                     db.users, db.creds, db.states, gw.nextMessageId);
      outcome := Dispatch(u, chatId, ParseCallback(data), token);
    }
  }
}
