/**
 * Screen rendering of main.py as a pure descriptor: which buttons, with which
 * callback actions, each screen shows. The HTML text of a screen is kept
 * abstract (`ScreenText` names the screen and the profile fields it shows).
 */
module Screens {
  import opened Translation
  import opened UserStore
  import opened Routing

  /** An inline button; its `callback_data` is `CallbackData(action)`. */
  datatype Button = Button(caption: string, action: Callback)

  type Rows = seq<seq<Button>>

  /** `reply_markup`: none, or an inline keyboard. */
  datatype Markup = NoMarkup | Inline(rows: Rows)

  /** The text of a message: a translated string, or the rendered text of a screen. */
  datatype Body =
    | Plain(text: string)
    | ScreenText(screen: string, userId: int, language: string, currency: string, plan: string, poConfigured: bool)
    | FallbackText(language: string)

  datatype Rendered = Rendered(body: Body, markup: Markup)

  const KnownScreens: set<string> := {"home", "menu", "help", "bank", "my_longs", "my_stats", "plans", "settings"}

  /** The plans the keyboards offer for sale. */
  const SoldPlans: set<string> := {"free", "long", "short", "vip"}

  ghost predicate HasAction(rows: Rows, a: Callback) {
    exists i, j :: 0 <= i < |rows| && 0 <= j < |rows[i]| && rows[i][j].action == a
  }

  /** Every action on the keyboard satisfies `P`. */
  ghost predicate AllActions(rows: Rows, P: Callback -> bool) {
    forall i, j :: 0 <= i < |rows| && 0 <= j < |rows[i]| ==> P(rows[i][j].action)
  }

  lemma {:induction false} HasActionAppend(a: Rows, b: Rows, x: Callback)
    ensures HasAction(a + b, x) <==> HasAction(a, x) || HasAction(b, x)
  {
    if HasAction(a + b, x) {
      var i, j :| 0 <= i < |a + b| && 0 <= j < |(a + b)[i]| && (a + b)[i][j].action == x;
      if i < |a| {
        assert a[i][j].action == x;
      } else {
        assert b[i - |a|][j].action == x;
      }
    }
    if HasAction(a, x) {
      var i, j :| 0 <= i < |a| && 0 <= j < |a[i]| && a[i][j].action == x;
      assert (a + b)[i][j].action == x;
    }
    if HasAction(b, x) {
      var i, j :| 0 <= i < |b| && 0 <= j < |b[i]| && b[i][j].action == x;
      assert (a + b)[|a| + i][j].action == x;
    }
  }

  /** `_nav_kb`: one row holding the back and/or home control, or no row at all. */
  function NavKb(catalog: Catalog, lang: string, showBack: bool, showHome: bool): (rows: Rows)
    requires "ru" in catalog
    ensures rows == [] <==> !showBack && !showHome
    ensures |rows| <= 1
  {
    var back := Button(Tr(catalog, lang, "nav_back", map[]), NavBack);
    var home := Button(Tr(catalog, lang, "nav_home", map[]), NavHome);
    if showBack && showHome then [[back, home]]
    else if showBack then [[back]]
    else if showHome then [[home]]
    else []
  }

  /** The row of `_nav_kb` holds the back control iff asked, the home control iff asked, and nothing else. */
  lemma NavKbActions(catalog: Catalog, lang: string, showBack: bool, showHome: bool)
    requires "ru" in catalog
    ensures HasAction(NavKb(catalog, lang, showBack, showHome), NavBack) <==> showBack
    ensures HasAction(NavKb(catalog, lang, showBack, showHome), NavHome) <==> showHome
    ensures AllActions(NavKb(catalog, lang, showBack, showHome), a => a == NavBack || a == NavHome)
  {
    var rows: Rows := NavKb(catalog, lang, showBack, showHome);
    if showBack && showHome {
      assert rows[0][0].action == NavBack && rows[0][1].action == NavHome;
    } else if showBack {
      assert rows[0][0].action == NavBack;
    } else if showHome {
      assert rows[0][0].action == NavHome;
    }
  }

  /** A button of a screen descriptor: its caption is a message key, or fixed text. */
  datatype ButtonSpec = Translated(key: string, action: Callback) | Fixed(caption: string, action: Callback)

  type Layout = seq<seq<ButtonSpec>>

  /** The registry of screen descriptors: each screen's own buttons, above the navigation row. */
  function ScreenLayout(screen: string): Layout {
    match screen
    case "home" =>
      [[Translated("btn_menu", NavTo("menu"))], [Translated("btn_signal", SignalAction)],
       [Translated("btn_plans", NavTo("plans"))], [Translated("btn_settings", NavTo("settings"))]]
    case "menu" =>
      [[Translated("btn_signal", SignalAction)], [Translated("help_title", NavTo("help"))],
       [Translated("bank_title", NavTo("bank"))], [Translated("btn_plans", NavTo("plans"))],
       [Translated("btn_settings", NavTo("settings"))]]
    case "bank" =>
      [[Translated("plan_long", PlanSelect("long"))], [Translated("plan_short", PlanSelect("short"))],
       [Translated("plan_vip", PlanSelect("vip"))], [Translated("btn_plans", NavTo("plans"))]]
    case "plans" =>
      [[Translated("plan_free", PlanSelect("free"))], [Translated("plan_long", PlanSelect("long"))],
       [Translated("plan_short", PlanSelect("short"))], [Translated("plan_vip", PlanSelect("vip"))]]
    case "settings" =>
      [[Fixed("RU", SetLanguage("ru")), Fixed("EN", SetLanguage("en"))],
       [Fixed("USD", SetCurrency("USD")), Fixed("EUR", SetCurrency("EUR")), Fixed("RUB", SetCurrency("RUB"))]]
    case _ => []
  }

  /** What the descriptors promise about their own buttons. */
  ghost predicate ProperAction(a: Callback) {
    Routable(a) && a != NavBack && a != NavHome && (a.PlanSelect? ==> a.plan in SoldPlans)
  }

  /**
   * Every button of every descriptor routes back to its own action, is not a
   * navigation control, and offers only a plan that is sold.
   */
  lemma LayoutsProper(screen: string)
    ensures forall i, j :: 0 <= i < |ScreenLayout(screen)| && 0 <= j < |ScreenLayout(screen)[i]| ==>
      ProperAction(ScreenLayout(screen)[i][j].action)
  {
  }

  function Realize(catalog: Catalog, lang: string, b: ButtonSpec): (r: Button)
    requires "ru" in catalog
    ensures r.action == b.action
  {
    match b
    case Translated(key, action) => Button(Tr(catalog, lang, key, map[]), action)
    case Fixed(caption, action) => Button(caption, action)
  }

  /** The buttons of a descriptor, captions translated into `lang`. */
  function ScreenButtons(catalog: Catalog, lang: string, screen: string): (rows: Rows)
    requires "ru" in catalog
  {
    var layout: Layout := ScreenLayout(screen);
    seq(|layout|, i requires 0 <= i < |layout| =>
      seq(|layout[i]|, j requires 0 <= j < |layout[i]| => Realize(catalog, lang, layout[i][j])))
  }

  /** The buttons of a screen are its descriptor's, row for row, with the same actions. */
  lemma ScreenButtonsFollowLayout(catalog: Catalog, lang: string, screen: string)
    requires "ru" in catalog
    ensures var rows := ScreenButtons(catalog, lang, screen);
      |rows| == |ScreenLayout(screen)|
      && (forall i :: 0 <= i < |rows| ==> |rows[i]| == |ScreenLayout(screen)[i]|)
      && (forall i, j :: 0 <= i < |rows| && 0 <= j < |rows[i]| ==> rows[i][j].action == ScreenLayout(screen)[i][j].action)
  {
  }

  /** The keyboard of `render_screen`. */
  function RenderKeyboard(catalog: Catalog, lang: string, screen: string, stack: seq<string>): (r: Markup)
    requires "ru" in catalog
    ensures r.Inline?
    ensures screen == "home" ==> r.rows == ScreenButtons(catalog, lang, "home")
    ensures screen in KnownScreens ==>
              |ScreenButtons(catalog, lang, screen)| <= |r.rows|
              && r.rows[..|ScreenButtons(catalog, lang, screen)|] == ScreenButtons(catalog, lang, screen)
    ensures screen !in KnownScreens ==> |r.rows| == 1
  {
    if screen == "home" then Inline(ScreenButtons(catalog, lang, screen))
    else if screen in KnownScreens then
      Inline(ScreenButtons(catalog, lang, screen) + NavKb(catalog, lang, |stack| > 0 && screen != "home", screen != "home"))
    else Inline([[Button(Tr(catalog, lang, "nav_home", map[]), NavHome)]])
  }

  /** `render_screen`: text and keyboard from the profile, the screen and the stack. */
  function RenderScreen(catalog: Catalog, userId: int, p: Profile, screen: string, stack: seq<string>,
                        poConfigured: bool): (r: Rendered)
    requires "ru" in catalog
    ensures r.markup == RenderKeyboard(catalog, p.language, screen, stack)
    ensures screen !in KnownScreens ==> r.body == FallbackText(p.language)
  {
    var body :=
      if screen in KnownScreens then
        ScreenText(screen, userId, p.language, p.currency, p.plan, screen == "home" && poConfigured)
      else FallbackText(p.language);
    Rendered(body, RenderKeyboard(catalog, p.language, screen, stack))
  }

  /** Whether PO credentials are stored shows only on home. */
  lemma PoStatusOnlyOnHome(catalog: Catalog, userId: int, p: Profile, screen: string, stack: seq<string>)
    requires "ru" in catalog && screen != "home"
    ensures RenderScreen(catalog, userId, p, screen, stack, true) == RenderScreen(catalog, userId, p, screen, stack, false)
  {
  }

  lemma ScreenButtonsProper(catalog: Catalog, lang: string, screen: string)
    requires "ru" in catalog
    ensures AllActions(ScreenButtons(catalog, lang, screen), ProperAction)
    ensures !HasAction(ScreenButtons(catalog, lang, screen), NavBack)
    ensures !HasAction(ScreenButtons(catalog, lang, screen), NavHome)
  {
    LayoutsProper(screen);
    ScreenButtonsFollowLayout(catalog, lang, screen);
  }

  /**
   * On a known screen the back control is shown exactly when the stack is
   * non-empty and the screen is not home, the home control exactly off home.
   */
  lemma ControlRules(catalog: Catalog, lang: string, screen: string, stack: seq<string>)
    requires "ru" in catalog && screen in KnownScreens
    ensures RenderKeyboard(catalog, lang, screen, stack).Inline?
    ensures HasAction(RenderKeyboard(catalog, lang, screen, stack).rows, NavBack) <==> |stack| > 0 && screen != "home"
    ensures HasAction(RenderKeyboard(catalog, lang, screen, stack).rows, NavHome) <==> screen != "home"
  {
    ScreenButtonsProper(catalog, lang, screen);
    if screen != "home" {
      var nav := NavKb(catalog, lang, |stack| > 0, true);
      NavKbActions(catalog, lang, |stack| > 0, true);
      HasActionAppend(ScreenButtons(catalog, lang, screen), nav, NavBack);
      HasActionAppend(ScreenButtons(catalog, lang, screen), nav, NavHome);
    }
  }

  /** An unrecognised screen renders a single home button and nothing else. */
  lemma FallbackKeyboard(catalog: Catalog, lang: string, screen: string, stack: seq<string>)
    requires "ru" in catalog && screen !in KnownScreens
    ensures RenderKeyboard(catalog, lang, screen, stack) == Inline([[Button(Tr(catalog, lang, "nav_home", map[]), NavHome)]])
    ensures !HasAction(RenderKeyboard(catalog, lang, screen, stack).rows, NavBack)
  {
    var rows: Rows := RenderKeyboard(catalog, lang, screen, stack).rows;
    assert forall i: int, j: int :: 0 <= i < |rows| && 0 <= j < |rows[i]| ==> rows[i][j].action == NavHome;
  }

  /**
   * Every button `render_screen` draws carries data that `callback_router`
   * reads back as that button's own action, and offers only a sold plan.
   */
  lemma {:induction false} EveryButtonRoutes(catalog: Catalog, lang: string, screen: string, stack: seq<string>,
                                             i: int, j: int)
    requires "ru" in catalog
    requires 0 <= i < |RenderKeyboard(catalog, lang, screen, stack).rows|
    requires 0 <= j < |RenderKeyboard(catalog, lang, screen, stack).rows[i]|
    ensures var a := RenderKeyboard(catalog, lang, screen, stack).rows[i][j].action;
      ParseCallback(CallbackData(a)) == a && (a.PlanSelect? ==> a.plan in SoldPlans)
  {
    var rows: Rows := RenderKeyboard(catalog, lang, screen, stack).rows;
    var a := rows[i][j].action;
    if screen in KnownScreens {
      var own: Rows := ScreenButtons(catalog, lang, screen);
      ScreenButtonsProper(catalog, lang, screen);
      if i < |own| {
        assert a == own[i][j].action;
        assert ProperAction(a);
      } else {
        var nav := NavKb(catalog, lang, |stack| > 0 && screen != "home", screen != "home");
        NavKbActions(catalog, lang, |stack| > 0 && screen != "home", screen != "home");
        assert rows == own + nav;
        assert a == nav[i - |own|][j].action;
        assert a == NavBack || a == NavHome;
      }
    } else {
      assert a == NavHome;
    }
    CallbackRoundTrip(a);
  }
}
