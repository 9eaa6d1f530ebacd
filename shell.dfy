/**
 * The Electron main process of src/index.js as a class: the four window
 * slots are its fields, and the window helpers and IPC handlers are methods
 * that reassign them step by step. Windows are objects whose only observable
 * state is whether Electron has destroyed them and what the main process did
 * to them (close, focus, messages delivered into the page).
 */
module Shell {
  import opened Wrappers
  import opened GoogleAuth
  import opened WindowSlots

  /** What the main process delivers into a window's page. */
  datatype Message =
    | SetToken(token: string)         // webContents.send('set-token', token)
    | Alert(text: string)             // webContents.executeJavaScript(`alert("…")`)
    | GoogleLoginFailed(fault: Fault) // webContents.send('google-login-failed', error.message)

  /** What happened to one window, in order. */
  datatype WindowEvent =
    | CloseCalled                     // close() was called on it
    | Focused                         // focus() was called on it
    | FinishedLoad                    // its page emitted 'did-finish-load'
    | Delivered(message: Message)

  function Deliveries(ms: seq<Message>): (es: seq<WindowEvent>)
    ensures |es| == |ms|
    ensures forall i :: 0 <= i < |ms| ==> es[i] == Delivered(ms[i])
  {
    if ms == [] then [] else [Delivered(ms[0])] + Deliveries(ms[1..])
  }

  /** Every `set-token` delivered to a window comes after that window's 'did-finish-load'. */
  predicate TokenAfterLoad(h: seq<WindowEvent>)
  {
    forall i :: 0 <= i < |h| && h[i].Delivered? && h[i].message.SetToken? ==> FinishedLoad in h[..i]
  }

  /** Delivering the messages queued for 'did-finish-load' right after it keeps TokenAfterLoad. */
  lemma LoadThenDeliver(h: seq<WindowEvent>, ms: seq<Message>)
    requires TokenAfterLoad(h)
    ensures TokenAfterLoad(h + [FinishedLoad] + Deliveries(ms))
  {
    var h' := h + [FinishedLoad] + Deliveries(ms);
    forall i | 0 <= i < |h'| && h'[i].Delivered? && h'[i].message.SetToken?
      ensures FinishedLoad in h'[..i]
    {
      if i < |h| {
        assert h'[..i] == h[..i];
      } else {
        assert h'[|h|] == FinishedLoad;
        assert i != |h|;
        assert h'[..i][|h|] == FinishedLoad;
      }
    }
  }

  /** A BrowserWindow as the main process sees it. */
  class Window {
    const kind: Kind
    var destroyed: bool
    var history: seq<WindowEvent>
    /** Messages registered with webContents.once('did-finish-load', …) and not yet delivered. */
    var onLoad: seq<Message>

    predicate Pristine()
      reads this
    {
      !destroyed && history == [] && onLoad == []
    }

    constructor (kind: Kind)
      ensures this.kind == kind && Pristine()
    {
      this.kind := kind;
      destroyed := false;
      history := [];
      onLoad := [];
    }

    method Close()
      requires !destroyed
      modifies this`destroyed, this`history
      ensures destroyed && history == old(history) + [CloseCalled]
    {
      destroyed := true;
      history := history + [CloseCalled];
    }

    method Focus()
      requires !destroyed
      modifies this`history
      ensures history == old(history) + [Focused]
    {
      history := history + [Focused];
    }

    method Send(m: Message)
      requires !destroyed
      modifies this`history
      ensures history == old(history) + [Delivered(m)]
    {
      history := history + [Delivered(m)];
    }

    method OnceLoaded(m: Message)
      requires !destroyed
      modifies this`onLoad
      ensures onLoad == old(onLoad) + [m]
    {
      onLoad := onLoad + [m];
    }

    /** The page finished loading: the `once` listeners run, in order, and are dropped. */
    method FinishLoad()
      requires !destroyed
      modifies this`history, this`onLoad
      ensures history == old(history) + [FinishedLoad] + Deliveries(old(onLoad))
      ensures onLoad == []
      ensures TokenAfterLoad(old(history)) ==> TokenAfterLoad(history)
    {
      if TokenAfterLoad(history) {
        LoadThenDeliver(history, onLoad);
      }
      history := history + [FinishedLoad] + Deliveries(onLoad);
      onLoad := [];
    }
  }

  /** The state a slot holding `w` is in. */
  function StateOf(w: Window?): (s: SlotState)
    reads w
  {
    if w == null then Empty else if w.destroyed then Dead else Live
  }

  /**
   * What became of a window that was in a slot: left alone when `kept` or
   * already destroyed, otherwise sent `notice` and then closed.
   */
  twostate predicate Settled(w: Window?, kept: bool, notice: seq<Message>)
    reads w
  {
    w != null ==>
      if kept || old(w.destroyed) then unchanged(w)
      else w.destroyed && w.history == old(w.history) + Deliveries(notice) + [CloseCalled]
           && w.onLoad == old(w.onLoad)
  }

  /** `closeWindow`: close the window if there is one and it is not destroyed; the slot becomes null. */
  method CloseWindow(w: Window?) returns (r: Window?)
    modifies w
    ensures r == null
    ensures Settled(w, false, [])
  {
    if w != null && !w.destroyed {
      w.Close();
    }
    r := null;
  }

  class MainProcess {
    var mainWindow: Window?
    var loginWindow: Window?
    var registerWindow: Window?
    var authWindow: Window?
    /** The electron-store entry 'token'. */
    var storedToken: Option<string>
    /** The HTTP requests sent so far, in order. */
    var requests: seq<Request>

    function Slot(k: Kind): (w: Window?)
      reads this
    {
      match k
      case Main => mainWindow
      case Login => loginWindow
      case Register => registerWindow
      case Auth => authWindow
    }

    /** The windows the slots refer to. */
    function Held(): (ws: set<Window>)
      reads this
    {
      (if mainWindow != null then {mainWindow} else {}) +
      (if loginWindow != null then {loginWindow} else {}) +
      (if registerWindow != null then {registerWindow} else {}) +
      (if authWindow != null then {authWindow} else {})
    }

    function View(): (v: Slots)
      reads this, Held()
    {
      Slots(StateOf(mainWindow), StateOf(loginWindow), StateOf(registerWindow), StateOf(authWindow))
    }

    /**
     * Each slot holds a window of its own kind (so no two slots share one),
     * and at most one of the main, login and register slots is in use.
     */
    ghost predicate Valid()
      reads this
    {
      && (mainWindow != null ==> mainWindow.kind == Main)
      && (loginWindow != null ==> loginWindow.kind == Login)
      && (registerWindow != null ==> registerWindow.kind == Register)
      && (authWindow != null ==> authWindow.kind == Auth)
      && (mainWindow == null || loginWindow == null)
      && (mainWindow == null || registerWindow == null)
      && (loginWindow == null || registerWindow == null)
    }

    /** The state before `app.whenReady()`: no windows, nothing stored, nothing sent. */
    constructor ()
      ensures Valid() && View() == NoWindows
      ensures storedToken == None && requests == []
    {
      mainWindow, loginWindow, registerWindow, authWindow := null, null, null, null;
      storedToken := None;
      requests := [];
    }

    method CloseAllWindowsExcept(except: Kind)
      requires Valid()
      modifies this, Held()
      ensures Valid()
      ensures Slot(except) == old(Slot(except))
      ensures forall k :: k != except ==> Slot(k) == null
      ensures View() == CloseAllExcept(old(View()), except)
      ensures Settled(old(mainWindow), except == Main, [])
      ensures Settled(old(loginWindow), except == Login, [])
      ensures Settled(old(registerWindow), except == Register, [])
      ensures Settled(old(authWindow), except == Auth, [])
      ensures storedToken == old(storedToken) && requests == old(requests)
    {
      if except != Main { mainWindow := CloseWindow(mainWindow); }
      if except != Login { loginWindow := CloseWindow(loginWindow); }
      if except != Register { registerWindow := CloseWindow(registerWindow); }
      if except != Auth { authWindow := CloseWindow(authWindow); }
    }

    method CreateMainWindow()
      requires Valid()
      modifies this, Held()
      ensures Valid()
      ensures mainWindow != null && fresh(mainWindow) && mainWindow.Pristine()
      ensures loginWindow == null && registerWindow == null && authWindow == null
      ensures View() == Open(old(View()), Main)
      ensures Settled(old(mainWindow), true, [])
      ensures Settled(old(loginWindow), false, [])
      ensures Settled(old(registerWindow), false, [])
      ensures Settled(old(authWindow), false, [])
      ensures storedToken == old(storedToken) && requests == old(requests)
    {
      CloseAllWindowsExcept(Main);
      mainWindow := new Window(Main);
    }

    method CreateLoginWindow()
      requires Valid()
      modifies this, Held()
      ensures Valid()
      ensures loginWindow != null && fresh(loginWindow) && loginWindow.Pristine()
      ensures mainWindow == null && registerWindow == null && authWindow == null
      ensures View() == Open(old(View()), Login)
      ensures Settled(old(mainWindow), false, [])
      ensures Settled(old(loginWindow), true, [])
      ensures Settled(old(registerWindow), false, [])
      ensures Settled(old(authWindow), false, [])
      ensures storedToken == old(storedToken) && requests == old(requests)
    {
      CloseAllWindowsExcept(Login);
      loginWindow := new Window(Login);
    }

    method CreateRegisterWindow()
      requires Valid()
      modifies this, Held()
      ensures Valid()
      ensures registerWindow != null && fresh(registerWindow) && registerWindow.Pristine()
      ensures mainWindow == null && loginWindow == null && authWindow == null
      ensures View() == Open(old(View()), Register)
      ensures Settled(old(mainWindow), false, [])
      ensures Settled(old(loginWindow), false, [])
      ensures Settled(old(registerWindow), true, [])
      ensures Settled(old(authWindow), false, [])
      ensures storedToken == old(storedToken) && requests == old(requests)
    {
      CloseAllWindowsExcept(Register);
      registerWindow := new Window(Register);
    }

    /** `logout-success`: the main window is closed and a new login window opened. */
    method HandleLogout()
      requires Valid()
      modifies this, Held()
      ensures Valid()
      ensures loginWindow != null && fresh(loginWindow) && loginWindow.Pristine()
      ensures mainWindow == null && registerWindow == null && authWindow == null
      ensures View() == Step(old(View()), LogoutSuccess)
      ensures Settled(old(mainWindow), false, [])
      ensures Settled(old(loginWindow), true, [])
      ensures Settled(old(registerWindow), false, [])
      ensures Settled(old(authWindow), false, [])
      ensures storedToken == old(storedToken) && requests == old(requests)
    {
      mainWindow := CloseWindow(mainWindow);
      CreateLoginWindow();
    }

    /**
     * `login-success`: store the token, replace the login window by a new main
     * window, and hand that window the token once its page has loaded.
     */
    method OnLoginSuccess(token: string)
      requires Valid()
      modifies this, Held()
      ensures Valid()
      ensures storedToken == Some(token) && requests == old(requests)
      ensures mainWindow != null && fresh(mainWindow)
      ensures !mainWindow.destroyed && mainWindow.history == [] && mainWindow.onLoad == [SetToken(token)]
      ensures loginWindow == null && registerWindow == null && authWindow == null
      ensures View() == Step(old(View()), LoginSuccess(token))
      ensures Settled(old(mainWindow), true, [])
      ensures Settled(old(loginWindow), false, [])
      ensures Settled(old(registerWindow), false, [])
      ensures Settled(old(authWindow), false, [])
    {
      storedToken := Some(token);
      loginWindow := CloseWindow(loginWindow);
      CreateMainWindow();
      mainWindow.OnceLoaded(SetToken(token));
    }

    /** A window's 'closed' callback: its slot is set to null. */
    method OnClosed(k: Kind)
      requires Valid()
      modifies this
      ensures Valid()
      ensures Slot(k) == null
      ensures forall j :: j != k ==> Slot(j) == old(Slot(j))
      ensures View() == Step(old(View()), WindowClosed(k))
      ensures storedToken == old(storedToken) && requests == old(requests)
    {
      match k
      case Main => mainWindow := null;
      case Login => loginWindow := null;
      case Register => registerWindow := null;
      case Auth => authWindow := null;
    }

    /**
     * `start-google-login`: an auth window that is open is only focused;
     * otherwise a new one is created (it then loads the consent page).
     */
    method StartGoogleLogin()
      requires Valid()
      modifies this, Held()
      ensures Valid()
      ensures mainWindow == old(mainWindow) && loginWindow == old(loginWindow)
      ensures registerWindow == old(registerWindow)
      ensures View() == Step(old(View()), StartGoogle)
      ensures old(View()).auth == Live ==>
        && authWindow == old(authWindow)
        && authWindow.history == old(authWindow.history) + [Focused]
        && !authWindow.destroyed && authWindow.onLoad == old(authWindow.onLoad)
      ensures old(View()).auth != Live ==>
        && authWindow != null && fresh(authWindow) && authWindow.Pristine()
        && Settled(old(authWindow), true, [])
      ensures Settled(old(mainWindow), true, [])
      ensures Settled(old(loginWindow), true, [])
      ensures Settled(old(registerWindow), true, [])
      ensures storedToken == old(storedToken) && requests == old(requests)
    {
      if authWindow != null && !authWindow.destroyed {
        authWindow.Focus();
        return;
      }
      authWindow := new Window(Auth);
    }

    /**
     * Deliver `notice` to the login window if there is one, close it, and open
     * a new login window: the register-failure branch (alert) and the outer
     * catch ('google-login-failed') both end this way.
     */
    method ReopenLogin(notice: Message)
      requires Valid()
      requires loginWindow == null || !loginWindow.destroyed
      modifies this, Held()
      ensures Valid()
      ensures loginWindow != null && fresh(loginWindow) && loginWindow.Pristine()
      ensures mainWindow == null && registerWindow == null && authWindow == null
      ensures View() == Open(old(View()), Login)
      ensures Settled(old(mainWindow), false, [])
      ensures Settled(old(loginWindow), false, [notice])
      ensures Settled(old(registerWindow), false, [])
      ensures Settled(old(authWindow), false, [])
      ensures storedToken == old(storedToken) && requests == old(requests)
    {
      if loginWindow != null {
        assert Deliveries([notice]) == [Delivered(notice)];
        loginWindow.Send(notice);
      }
      loginWindow := CloseWindow(loginWindow);
      CreateLoginWindow();
    }

    /**
     * The handler's `try` block: the chain of awaited requests. It ends
     * normally after `login-success` or after the registration alert, and
     * otherwise with the exception the outer `catch` receives, having changed
     * nothing but the requests sent.
     */
    method Handshake(code: CodeParam, tokenRes: Response<TokenBody>, userRes: Response<Profile>,
                     registerRes: Response<()>, loginRes: Response<LoginBody>)
      returns (thrown: Option<Fault>)
      requires Valid()
      modifies this, Held()
      ensures Valid()
      ensures requests == old(requests) + Pipeline(code, tokenRes, userRes, registerRes, loginRes).requests
      ensures var e := Settle(old(View()).login, Pipeline(code, tokenRes, userRes, registerRes, loginRes).outcome);
        && (thrown.None? <==> e.LoggedIn? || e.Alerted?)
        && (thrown.Some? ==>
              && (e.Reported? || e.Unhandled?) && e.fault == thrown.value
              && mainWindow == old(mainWindow) && loginWindow == old(loginWindow)
              && registerWindow == old(registerWindow) && authWindow == old(authWindow)
              && storedToken == old(storedToken)
              && Settled(old(mainWindow), true, []) && Settled(old(loginWindow), true, [])
              && Settled(old(registerWindow), true, []) && Settled(old(authWindow), true, []))
        && (e.LoggedIn? ==>
              && storedToken == Some(e.token)
              && mainWindow != null && fresh(mainWindow) && !mainWindow.destroyed
              && mainWindow.history == [] && mainWindow.onLoad == [SetToken(e.token)]
              && loginWindow == null && registerWindow == null && authWindow == null
              && Settled(old(mainWindow), true, []) && Settled(old(loginWindow), false, [])
              && Settled(old(registerWindow), false, []) && Settled(old(authWindow), false, []))
        && (e.Alerted? ==>
              && storedToken == old(storedToken)
              && loginWindow != null && fresh(loginWindow) && loginWindow.Pristine()
              && mainWindow == null && registerWindow == null && authWindow == null
              && Settled(old(mainWindow), false, []) && Settled(old(loginWindow), false, [Alert(e.message)])
              && Settled(old(registerWindow), false, []) && Settled(old(authWindow), false, []))
    {
      thrown := None;
      match code {
        case Unparsable =>
          thrown := Some(BadRedirectUrl);
        case Code(c) =>
          requests := requests + [TokenRequest(c)];
          if tokenRes.Err? {
            thrown := Some(RequestFailed(tokenRes.message));
          } else {
            requests := requests + [UserInfoRequest(tokenRes.body.accessToken)];
            if userRes.Err? {
              thrown := Some(RequestFailed(userRes.message));
            } else {
              var profile := userRes.body;
              var password := FakePassword(profile.email);
              requests := requests + [RegisterRequest(profile.name, profile.email, password, profile.id)];
              if registerRes.Err? && registerRes.status != Some(Conflict) {
                var message := RegisterErrorMessage(registerRes.status);
                if loginWindow == null || loginWindow.destroyed {
                  thrown := Some(NoLoginWindow);
                } else {
                  ReopenLogin(Alert(message));
                }
              } else {
                requests := requests + [LoginRequest(profile.email, password)];
                if loginRes.Err? {
                  thrown := Some(RequestFailed(loginRes.message));
                } else {
                  OnLoginSuccess(loginRes.body.token);
                }
              }
            }
          }
      }
    }

    /**
     * The auth window's 'will-redirect' handler. A redirect to the local
     * target is prevented and runs the handshake, whose network calls answer
     * with the given responses; any other redirect is left alone.
     */
    method OnWillRedirect(url: string, code: CodeParam, tokenRes: Response<TokenBody>,
                          userRes: Response<Profile>, registerRes: Response<()>,
                          loginRes: Response<LoginBody>)
      returns (prevented: bool)
      requires Valid()
      modifies this, Held()
      ensures Valid()
      ensures prevented == IsLocalRedirect(url)
      ensures var a := Pipeline(code, tokenRes, userRes, registerRes, loginRes);
        View() == Step(old(View()), WillRedirect(url, a.outcome))
      ensures !prevented ==>
        && unchanged(this)
        && Settled(old(mainWindow), true, []) && Settled(old(loginWindow), true, [])
        && Settled(old(registerWindow), true, []) && Settled(old(authWindow), true, [])
      ensures prevented ==>
        var a := Pipeline(code, tokenRes, userRes, registerRes, loginRes);
        var e := Settle(old(View()).login, a.outcome);
        && requests == old(requests) + a.requests
        && authWindow == null
        && storedToken == (if e.LoggedIn? then Some(e.token) else old(storedToken))
        && Settled(old(mainWindow), e.LoggedIn? || e.Unhandled?, [])
        && Settled(old(loginWindow), e.Unhandled?, Notice(e))
        && Settled(old(registerWindow), e.Unhandled?, [])
        && Settled(old(authWindow), false, [])
        && (e.LoggedIn? ==>
              && mainWindow != null && fresh(mainWindow) && !mainWindow.destroyed
              && mainWindow.history == [] && mainWindow.onLoad == [SetToken(e.token)])
        && (e.Alerted? || e.Reported? ==>
              loginWindow != null && fresh(loginWindow) && loginWindow.Pristine())
        && (e.Unhandled? ==>
              mainWindow == old(mainWindow) && loginWindow == old(loginWindow)
              && registerWindow == old(registerWindow))
    {
      prevented := IsLocalRedirect(url);
      if !prevented {
        return;
      }
      var thrown := Handshake(code, tokenRes, userRes, registerRes, loginRes);
      // catch
      if thrown.Some? {
        if loginWindow != null && loginWindow.destroyed {
          // `loginWindow?.webContents` throws again and the error leaves the handler
        } else {
          ReopenLogin(GoogleLoginFailed(thrown.value));
        }
      }
      // finally
      authWindow := CloseWindow(authWindow);
    }
  }

  /** What the old login window is told before it is closed. */
  function Notice(e: Ending): (notice: seq<Message>)
  {
    match e
    case Alerted(m) => [Alert(m)]
    case Reported(f) => [GoogleLoginFailed(f)]
    case _ => []
  }

  /** A second click on the Google button only focuses the auth window the first click opened. */
  method GoogleButtonTwice()
  {
    var app := new MainProcess();
    app.CreateLoginWindow();
    app.StartGoogleLogin();
    var auth := app.authWindow;
    assert auth != null && auth.Pristine();
    app.StartGoogleLogin();
    assert app.authWindow == auth && auth.history == [Focused];
  }

  /**
   * A returning Google user, driven through the class: the registration
   * answers 409, both windows are closed, and the token reaches the main
   * window only after its page has loaded.
   */
  method ReturningUserSignsIn()
  {
    var app := new MainProcess();
    app.CreateLoginWindow();
    var login := app.loginWindow;
    app.StartGoogleLogin();
    var auth := app.authWindow;
    assert app.View() == Slots(Empty, Live, Empty, Live);

    ReturningUserScenario();
    var prevented := app.OnWillRedirect("http://localhost/?code=abc123", Code(Some("abc123")),
      Ok(TokenBody("AT1", "IT1")), Ok(Profile("g1", "Ana", "ana@x.com")),
      Err(Some(409), "Request failed with status code 409"), Ok(LoginBody("ST1")));
    assert prevented;
    assert app.requests == [TokenRequest(Some("abc123")), UserInfoRequest("AT1"),
                              RegisterRequest("Ana", "ana@x.com", "ana@x.com_googleAuth!", "g1"),
                              LoginRequest("ana@x.com", "ana@x.com_googleAuth!")];
    assert app.storedToken == Some("ST1");
    assert app.authWindow == null && app.loginWindow == null;
    assert auth.destroyed && login.destroyed;

    var main := app.mainWindow;
    assert main.history == [];
    main.FinishLoad();
    assert main.history == [FinishedLoad, Delivered(SetToken("ST1"))];
  }
}
