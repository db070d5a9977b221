/**
 * The records `parse_hello` fills in from the client's hello capabilities, with the values
 * `init_vars` gives them before any hello has been read.
 */
module Hello {
  import opened Common
  import opened Capabilities
  import Negotiation

  /** What the client asks the server to send it. */
  datatype ClientWants = ClientWants(uiClient: bool, aliases: bool, encodings: bool, versions: bool,
                                     features: bool, display: bool, events: bool, defaultCursor: bool)

  /** The `init_vars` values: a UI client that wants everything but events and the default cursor. */
  const INITIAL_WANTS := ClientWants(true, true, true, true, true, true, false, false)

  /** The first block of `parse_hello`: encodings and display default to whether this is a UI client. */
  function ParseWants(c: Caps): (w: ClientWants)
    ensures w.uiClient == BoolGet(c, "ui_client", true)
    ensures "wants_encodings" !in c ==> w.encodings == w.uiClient
    ensures "wants_display" !in c ==> w.display == w.uiClient
  {
    var ui := BoolGet(c, "ui_client", true);
    ClientWants(ui, BoolGet(c, "wants_aliases", true), BoolGet(c, "wants_encodings", ui),
                BoolGet(c, "wants_versions", true), BoolGet(c, "wants_features", true),
                BoolGet(c, "wants_display", ui), BoolGet(c, "wants_events", false),
                BoolGet(c, "wants_default_cursor", false))
  }

  /** The general features a client may declare. */
  datatype Features = Features(infoNamespace: bool, notifications: bool, notificationActions: bool,
                               randrNotify: bool, share: bool, lock: bool, controlCommands: seq<string>,
                               doubleClickTime: int, doubleClickDistance: Option<(int, int)>)

  /** The `init_vars` values: nothing enabled, double-click settings of -1. */
  const INITIAL_FEATURES := Features(false, false, false, false, false, false, [], -1, Some((-1, -1)))

  /** The "general features" block of `parse_hello`: each flag is off unless declared. */
  function ParseFeatures(c: Caps): (f: Features)
    ensures "info-namespace" !in c ==> !f.infoNamespace
    ensures "notifications" !in c ==> !f.notifications
    ensures "notifications.actions" !in c ==> !f.notificationActions
    ensures "randr_notify" !in c ==> !f.randrNotify
    ensures "share" !in c ==> !f.share
    ensures "lock" !in c ==> !f.lock
    ensures "control_commands" !in c ==> f.controlCommands == []
    ensures "double_click.time" !in c ==> f.doubleClickTime == 0
    ensures "double_click.distance" !in c ==> f.doubleClickDistance.None?
  {
    Features(BoolGet(c, "info-namespace", false), BoolGet(c, "notifications", false),
             BoolGet(c, "notifications.actions", false), BoolGet(c, "randr_notify", false),
             BoolGet(c, "share", false), BoolGet(c, "lock", false), StrListGet(c, "control_commands"),
             IntGet(c, "double_click.time", 0), IntPair(c, "double_click.distance"))
  }

  /** The client's desktop geometry. */
  datatype Desktop = Desktop(size: Option<(int, int)>, modeSize: Option<(int, int)>, sizeUnscaled: Option<(int, int)>,
                             screenSizes: seq<CapValue>, count: int, names: seq<string>)

  /** The `init_vars` values: no sizes, one unnamed desktop. */
  const INITIAL_DESKTOP := Desktop(None, None, None, [], 1, [])

  /** The desktop block of `parse_hello`. */
  function ParseDesktop(c: Caps): (d: Desktop)
    ensures d.size.Some? ==> Negotiation.ValidDimension(d.size.value.0) && Negotiation.ValidDimension(d.size.value.1)
    ensures d.size.Some? ==> d.size == IntPair(c, "desktop_size")
    ensures var p := IntPair(c, "desktop_size");
      p.Some? && Negotiation.ValidDimension(p.value.0) && Negotiation.ValidDimension(p.value.1) ==> d.size == p
    ensures d.count != 0
    ensures "desktops" !in c ==> d.count == 1
  {
    Desktop(Negotiation.CheckedDesktopSize(IntPair(c, "desktop_size")), IntPair(c, "desktop_mode_size"),
            IntPair(c, "desktop_size.unscaled"), ListGet(c, "screen_sizes").GetOr([]),
            Negotiation.DesktopCount(IntGet(c, "desktops", 1)), StrListGet(c, "desktop.names"))
  }

  /** A hello that declares nothing leaves the client's wants as `init_vars` set them. */
  lemma EmptyHelloKeepsInitialWants()
    ensures ParseWants(map[]) == INITIAL_WANTS
  {
  }

  /** A client that says it is not a UI client, and nothing else, wants neither encodings nor the display. */
  lemma NonUiClientWantsNoDisplay(c: Caps)
    requires "ui_client" in c && c["ui_client"] == BoolCap(false)
    requires "wants_encodings" !in c && "wants_display" !in c
    ensures !ParseWants(c).encodings && !ParseWants(c).display
    ensures ParseWants(c).aliases == BoolGet(c, "wants_aliases", true)
  {
  }

  /**
   * A hello that declares nothing turns every feature off but does not keep the -1
   * double-click settings of `init_vars`: the time becomes 0 and the distance None.
   */
  lemma EmptyHelloFeatures()
    ensures ParseFeatures(map[]) == INITIAL_FEATURES.(doubleClickTime := 0, doubleClickDistance := None)
  {
  }

  /** A hello that declares nothing leaves the desktop geometry as `init_vars` set it. */
  lemma EmptyHelloKeepsInitialDesktop()
    ensures ParseDesktop(map[]) == INITIAL_DESKTOP
  {
  }
}
