/**
 * The four module-level window references of the main process (src/index.js),
 * seen as values: for each slot, whether it is null, refers to an open
 * window, or refers to a window Electron has already destroyed.
 *
 * The functions here say what each operation does to the slots; the class
 * Shell.MainProcess is proved to have exactly these effects. The events and runs at
 * the end let lemmas speak about any sequence of operations.
 */
module WindowSlots {
  import opened GoogleAuth

  /** The slots `mainWindow`, `loginWindow`, `registerWindow` and `authWindow`. */
  datatype Kind = Main | Login | Register | Auth

  /** null; a window that is open; a window whose `isDestroyed()` is true. */
  datatype SlotState = Empty | Live | Dead

  datatype Slots = Slots(main: SlotState, login: SlotState, register: SlotState, auth: SlotState)
  {
    function Get(k: Kind): SlotState
    {
      match k
      case Main => main
      case Login => login
      case Register => register
      case Auth => auth
    }

    function Set(k: Kind, s: SlotState): (r: Slots)
      ensures r.Get(k) == s
      ensures forall j :: j != k ==> r.Get(j) == Get(j)
    {
      match k
      case Main => this.(main := s)
      case Login => this.(login := s)
      case Register => this.(register := s)
      case Auth => this.(auth := s)
    }
  }

  /** The slots when the app starts, before `app.whenReady()` creates the login window. */
  const NoWindows := Slots(Empty, Empty, Empty, Empty)

  /** `closeAllWindowsExcept(keep)`: every other slot ends null, `keep` is untouched. */
  function CloseAllExcept(v: Slots, keep: Kind): (r: Slots)
    ensures r.Get(keep) == v.Get(keep)
    ensures forall k :: k != keep ==> r.Get(k) == Empty
  {
    Slots(if keep == Main then v.main else Empty,
          if keep == Login then v.login else Empty,
          if keep == Register then v.register else Empty,
          if keep == Auth then v.auth else Empty)
  }

  /** `createMainWindow`, `createLoginWindow`, `createRegisterWindow`: only slot `k` is left, holding a new window. */
  function Open(v: Slots, k: Kind): (r: Slots)
    ensures r.Get(k) == Live
    ensures forall j :: j != k ==> r.Get(j) == Empty
  {
    CloseAllExcept(v, k).Set(k, Live)
  }

  /** `start-google-login`: an open auth window is only focused; otherwise a new one takes the slot. */
  function StartGoogleLogin(v: Slots): (r: Slots)
    ensures r.auth == Live
    ensures r.main == v.main && r.login == v.login && r.register == v.register
    ensures v.auth == Live ==> r == v
  {
    if v.auth == Live then v else v.(auth := Live)
  }

  /** How the redirect handler ends, once the window it reports to is taken into account. */
  datatype Ending =
    | LoggedIn(token: string)      // `login-success` was emitted
    | Alerted(message: string)     // registration refused; the alert went to the login window
    | Reported(fault: Fault)       // the outer catch ran to its end and reopened the login window
    | Unhandled(fault: Fault)      // the outer catch itself threw on a destroyed login window

  /**
   * The register-failure branch and the outer catch both reach into
   * `loginWindow.webContents`, which throws when the slot is null (the alert)
   * or holds a destroyed window (the alert, and the catch's `?.`).
   */
  function Settle(login: SlotState, o: Outcome): (e: Ending)
    ensures e.LoggedIn? <==> o.SignedIn?
    ensures o.SignedIn? ==> e.token == o.token
    ensures e.Alerted? <==> o.Refused? && login == Live
    ensures e.Alerted? ==> e.message == o.message
    ensures e.Unhandled? <==> !o.SignedIn? && login == Dead
    ensures e.Reported? && o.Refused? ==> e.fault == NoLoginWindow && login == Empty
    ensures e.Reported? && o.Threw? ==> e.fault == o.fault
  {
    match o
    case SignedIn(t) => LoggedIn(t)
    case Refused(m) =>
      (match login
       case Live => Alerted(m)
       case Empty => Reported(NoLoginWindow)
       case Dead => Unhandled(NoLoginWindow))
    case Threw(f) => if login == Dead then Unhandled(f) else Reported(f)
  }

  /** The slots after the redirect handler, including its `finally`. */
  function AfterRedirect(v: Slots, e: Ending): (r: Slots)
    ensures r.auth == Empty
  {
    match e
    case LoggedIn(_) => Open(v, Main)
    case Alerted(_) => Open(v, Login)
    case Reported(_) => Open(v, Login)
    case Unhandled(_) => v.(auth := Empty)
  }

  // ---------------------------------------------------------------------------
  // Runs of events

  /** What can happen to the main process, one step at a time. */
  datatype Event =
    | ShowLogin                           // `show-login`, and `app.whenReady()`
    | ShowRegister                        // `show-register`
    | LogoutSuccess                       // `logout-success`
    | LoginSuccess(token: string)         // `login-success` from the password form
    | StartGoogle                         // `start-google-login`
    | WillRedirect(url: string, outcome: Outcome)  // the auth window's `will-redirect`
    | WindowClosed(k: Kind)               // a window's `closed` callback
    | WindowDestroyed(k: Kind)            // Electron destroyed the window in slot `k`

  /** The slots after one event: the IPC bindings, the redirect handler and the `closed` callbacks. */
  function Step(v: Slots, e: Event): (r: Slots)
    // the password-form and navigation handlers leave only their own window
    ensures e.ShowLogin? || e.LogoutSuccess? ==> r == Slots(Empty, Live, Empty, Empty)
    ensures e.ShowRegister? ==> r == Slots(Empty, Empty, Live, Empty)
    ensures e.LoginSuccess? ==> r == Slots(Live, Empty, Empty, Empty)
    // the Google button touches only the auth slot
    ensures e.StartGoogle? ==> r.auth == Live && r.(auth := v.auth) == v
    // a foreign redirect changes nothing; a local one always frees the auth slot
    ensures e.WillRedirect? && !IsLocalRedirect(e.url) ==> r == v
    ensures e.WillRedirect? && IsLocalRedirect(e.url) ==> r.auth == Empty
    // a window's own closing nulls its slot and nothing else
    ensures e.WindowClosed? ==> r.Get(e.k) == Empty && forall j :: j != e.k ==> r.Get(j) == v.Get(j)
    ensures e.WindowDestroyed? ==> r.Get(e.k) != Live && forall j :: j != e.k ==> r.Get(j) == v.Get(j)
  {
    match e
    case ShowLogin => Open(v, Login)
    case ShowRegister => Open(v, Register)
    case LogoutSuccess => Open(v.(main := Empty), Login)
    case LoginSuccess(_) => Open(v.(login := Empty), Main)
    case StartGoogle => StartGoogleLogin(v)
    case WillRedirect(url, o) =>
      if IsLocalRedirect(url) then AfterRedirect(v, Settle(v.login, o)) else v
    case WindowClosed(k) => v.Set(k, Empty)
    case WindowDestroyed(k) => if v.Get(k) == Live then v.Set(k, Dead) else v
  }

  function Run(v: Slots, es: seq<Event>): (r: Slots)
    decreases |es|
  {
    if es == [] then v else Run(Step(v, es[0]), es[1..])
  }

  /** At most one of the main, login and register slots refers to a window; the auth window may sit beside it. */
  predicate OneView(v: Slots)
  {
    forall j, k :: j != Auth && k != Auth && v.Get(j) != Empty && v.Get(k) != Empty ==> j == k
  }

  lemma StepKeepsOneView(v: Slots, e: Event)
    requires OneView(v)
    ensures OneView(Step(v, e))
  {
    var r := Step(v, e);
    forall j, k | j != Auth && k != Auth && r.Get(j) != Empty && r.Get(k) != Empty
      ensures j == k
    {
      match e
      case WillRedirect(url, o) =>
        if IsLocalRedirect(url) && Settle(v.login, o).Unhandled? {
          assert r.Get(j) == v.Get(j) && r.Get(k) == v.Get(k);
        }
      case WindowClosed(c) =>
        assert r.Get(j) == v.Get(j) && r.Get(k) == v.Get(k);
      case WindowDestroyed(c) =>
        assert v.Get(j) != Empty && v.Get(k) != Empty;
      case StartGoogle =>
        assert r.Get(j) == v.Get(j) && r.Get(k) == v.Get(k);
      case _ =>
    }
  }

  /** Every sequence of events keeps at most one of the main, login and register windows referenced. */
  lemma {:induction false} RunKeepsOneView(v: Slots, es: seq<Event>)
    requires OneView(v)
    ensures OneView(Run(v, es))
    decreases |es|
  {
    if es != [] {
      StepKeepsOneView(v, es[0]);
      RunKeepsOneView(Step(v, es[0]), es[1..]);
    }
  }

  /** From the start of the app, no run ever shows two of the main, login and register windows at once. */
  lemma AppKeepsOneView(es: seq<Event>)
    ensures OneView(Run(NoWindows, es))
  {
    RunKeepsOneView(NoWindows, es);
  }

  /** Every local redirect leaves the auth slot null, whatever the handshake did. */
  lemma RedirectReleasesAuth(v: Slots, url: string, o: Outcome)
    requires IsLocalRedirect(url)
    ensures Step(v, WillRedirect(url, o)).auth == Empty
  {
  }

  /** The events that leave an open auth window open. */
  predicate KeepsAuth(e: Event)
  {
    || e.StartGoogle?
    || (e.WindowClosed? && e.k != Auth)
    || (e.WindowDestroyed? && e.k != Auth)
    || (e.WillRedirect? && !IsLocalRedirect(e.url))
  }

  /** How many new auth windows a run creates. */
  function AuthWindowsOpened(v: Slots, es: seq<Event>): (n: nat)
    decreases |es|
  {
    if es == [] then 0
    else (if es[0].StartGoogle? && v.auth != Live then 1 else 0) + AuthWindowsOpened(Step(v, es[0]), es[1..])
  }

  /** While an auth window is open, repeated `start-google-login` (and unrelated events) creates no other. */
  lemma {:induction false} OpenAuthWindowIsReused(v: Slots, es: seq<Event>)
    requires v.auth == Live
    requires forall i :: 0 <= i < |es| ==> KeepsAuth(es[i])
    ensures Run(v, es).auth == Live
    ensures AuthWindowsOpened(v, es) == 0
    decreases |es|
  {
    if es != [] {
      assert KeepsAuth(es[0]);
      OpenAuthWindowIsReused(Step(v, es[0]), es[1..]);
    }
  }

  /** Until something closes it, at most one auth window is ever created. */
  lemma {:induction false} AtMostOneAuthWindow(v: Slots, es: seq<Event>)
    requires forall i :: 0 <= i < |es| ==> KeepsAuth(es[i])
    ensures AuthWindowsOpened(v, es) <= 1
    decreases |es|
  {
    if es != [] {
      assert KeepsAuth(es[0]);
      if v.auth == Live || es[0].StartGoogle? {
        OpenAuthWindowIsReused(Step(v, es[0]), es[1..]);
      } else {
        AtMostOneAuthWindow(Step(v, es[0]), es[1..]);
      }
    }
  }
}
