/**
 * The admin widget listing the visitors currently on the public pages: the
 * rows the presence query keeps, and the labels each row shows (page,
 * browser, device, country flag, location, time since last seen).
 */
module OnlineUsers {
  import opened Options
  import opened Strings
  import Decimal

  /** A presence row. */
  datatype UserPresence = UserPresence(
    ipAddress: string,
    sessionId: Option<string>,
    pagePath: string,
    lastSeen: string,
    userAgent: string,
    country: Option<string>,
    city: Option<string>,
    region: Option<string>)

  predicate StartsWith(s: string, p: string) {
    |p| <= |s| && s[..|p|] == p
  }

  /** The query excludes every page whose path matches `/admin%`, i.e. starts with `/admin`. */
  predicate Listed(u: UserPresence) {
    !StartsWith(u.pagePath, "/admin")
  }

  // ---------------------------------------------------------------- page

  const HomeLabel: string := "🏠 Página Principal"
  const AdminLabel: string := "📊 Dashboard Admin"
  const LoginLabel: string := "🔐 Login Admin"
  const OtherPrefix: string := "📄 "

  /** The three named pages get their label; any other path is shown after a page icon. */
  function PageName(path: string): (r: string)
    ensures path == "/" ==> r == HomeLabel
    ensures path == "/admin" ==> r == AdminLabel
    ensures path == "/admin/login" ==> r == LoginLabel
    ensures path !in {"/", "/admin", "/admin/login"} ==> r == OtherPrefix + path
  {
    if path == "/" then HomeLabel
    else if path == "/admin" then AdminLabel
    else if path == "/admin/login" then LoginLabel
    else OtherPrefix + path
  }

  /** Different paths never share a label: the label identifies the page. */
  lemma PageNameInjective(a: string, b: string)
    requires PageName(a) == PageName(b)
    ensures a == b
  {
    if a !in {"/", "/admin", "/admin/login"} {
      assert PageName(a)[0] == '📄';
      assert a == PageName(a)[|OtherPrefix|..];
    }
    if b !in {"/", "/admin", "/admin/login"} {
      assert PageName(b)[0] == '📄';
      assert b == PageName(b)[|OtherPrefix|..];
    }
  }

  /** Because the query drops admin paths, a listed row never shows one of the admin labels. */
  lemma ListedRowsShowNoAdminPage(u: UserPresence)
    requires Listed(u)
    ensures PageName(u.pagePath) != AdminLabel && PageName(u.pagePath) != LoginLabel
  {
    if u.pagePath == "/admin" || u.pagePath == "/admin/login" {
      assert StartsWith(u.pagePath, "/admin");
    } else if u.pagePath != "/" {
      assert PageName(u.pagePath)[0] == '📄';
    }
  }

  // ------------------------------------------------------------- browser

  datatype Browser = Chrome | Firefox | Safari | Edge | Mobile | Generic {
    function Label(): string {
      match this
      case Chrome => "🌐 Chrome"
      case Firefox => "🦊 Firefox"
      case Safari => "🧭 Safari"
      case Edge => "📘 Edge"
      case Mobile => "📱 Móvil"
      case Generic => "🌍 Navegador"
    }
  }

  lemma BrowserLabelInjective(a: Browser, b: Browser)
    requires a.Label() == b.Label()
    ensures a == b
  {
    assert a.Label()[0] == b.Label()[0];
  }

  /** Which of the user-agent tokens the browser test looks at are present. */
  datatype Tokens = Tokens(chrome: bool, edge: bool, firefox: bool, safari: bool, mobile: bool)

  function TokensOf(ua: string): Tokens {
    Tokens(Includes(ua, "Chrome"), Includes(ua, "Edge"), Includes(ua, "Firefox"),
           Includes(ua, "Safari"), Includes(ua, "Mobile"))
  }

  /** The tests in their order; the first that holds names the browser. */
  function BrowserOf(ua: string): (b: Browser)
    ensures var t := TokensOf(ua);
      (b == Chrome <==> t.chrome && !t.edge)
      && (b == Firefox <==> !(t.chrome && !t.edge) && t.firefox)
      && (b == Safari <==> !(t.chrome && !t.edge) && !t.firefox && t.safari && !t.chrome)
      && (b == Edge <==> !(t.chrome && !t.edge) && !t.firefox && !(t.safari && !t.chrome) && t.edge)
      && (b == Mobile <==> !t.chrome && !t.edge && !t.firefox && !t.safari && t.mobile)
      && (b == Generic <==> !t.chrome && !t.edge && !t.firefox && !t.safari && !t.mobile)
  {
    if Includes(ua, "Chrome") && !Includes(ua, "Edge") then Chrome
    else if Includes(ua, "Firefox") then Firefox
    else if Includes(ua, "Safari") && !Includes(ua, "Chrome") then Safari
    else if Includes(ua, "Edge") then Edge
    else if Includes(ua, "Mobile") then Mobile
    else Generic
  }

  /** A user agent carrying both "Chrome" and "Edge" is never reported as Chrome, and "Safari" is reported only without "Chrome". */
  lemma BrowserTokenExclusions(ua: string)
    ensures Includes(ua, "Edge") ==> BrowserOf(ua) != Chrome
    ensures BrowserOf(ua) == Safari ==> !Includes(ua, "Chrome")
    ensures Includes(ua, "Chrome") && Includes(ua, "Edge") && !Includes(ua, "Firefox") ==> BrowserOf(ua) == Edge
  {
  }

  // -------------------------------------------------------------- device

  datatype Device = Phone | Computer {
    function Icon(): string {
      match this
      case Phone => "📱"
      case Computer => "💻"
    }
  }

  /** `/a|b|…/i.test(s)`: some alternative occurs in `s`, ignoring ASCII case. */
  predicate MatchesAny(s: string, alternatives: seq<string>) {
    exists k :: 0 <= k < |alternatives| && IncludesIgnoringCase(s, alternatives[k])
  }

  const PhonePattern: seq<string> := ["Mobile", "Android", "iPhone", "iPad", "iPod"]
  const TabletPattern: seq<string> := ["Tablet", "iPad"]

  /** A handheld device is recognised from either pattern; everything else counts as a computer. */
  function DeviceOf(ua: string): (d: Device)
    ensures d == Phone <==> MatchesAny(ua, PhonePattern + TabletPattern)
  {
    var all := PhonePattern + TabletPattern;
    assert forall k :: 0 <= k < |PhonePattern| ==> all[k] == PhonePattern[k];
    assert forall k :: 0 <= k < |TabletPattern| ==> all[k + |PhonePattern|] == TabletPattern[k];
    if MatchesAny(ua, PhonePattern) then Phone
    else if MatchesAny(ua, TabletPattern) then Phone
    else Computer
  }

  /** Upper-casing the user agent does not change the device, as befits a case-insensitive test. */
  lemma DeviceIgnoresCase(ua: string)
    ensures DeviceOf(Strings.Upper(ua)) == DeviceOf(ua)
  {
    UpperIdempotent(ua);
  }

  // ---------------------------------------------------------------- flag

  const Flags: map<string, string> := map[
    "Peru" := "🇵🇪",
    "United States" := "🇺🇸",
    "Mexico" := "🇲🇽",
    "Colombia" := "🇨🇴",
    "Argentina" := "🇦🇷",
    "Chile" := "🇨🇱",
    "Spain" := "🇪🇸",
    "Brazil" := "🇧🇷",
    "Ecuador" := "🇪🇨",
    "Bolivia" := "🇧🇴",
    "Venezuela" := "🇻🇪"
  ]

  const UnknownFlag: string := "🌎"

  /** The flag of a known country, the globe for a missing, empty or unknown one. */
  function CountryFlag(country: Option<string>): (r: string)
    ensures Truthy(country) && country.value in Flags ==> r == Flags[country.value]
    ensures !Truthy(country) || country.value !in Flags ==> r == UnknownFlag
  {
    var key := country.GetOr("");
    if key in Flags then Flags[key] else UnknownFlag
  }

  /** The globe is not any country's flag, and no two countries share one, so the flag shown identifies the known country. */
  lemma FlagIdentifiesCountry(a: Option<string>, b: Option<string>)
    requires CountryFlag(a) == CountryFlag(b) && CountryFlag(a) != UnknownFlag
    ensures Truthy(a) && Truthy(b) && a.value == b.value
  {
  }

  // ------------------------------------------------------------ location

  const UnknownLocation: string := "Ubicación desconocida"

  function Location(u: UserPresence): (r: string)
    ensures Truthy(u.city) && Truthy(u.country) ==> r == u.city.value + ", " + u.country.value
    ensures !Truthy(u.city) && Truthy(u.country) ==> r == u.country.value
    ensures !Truthy(u.country) ==> r == UnknownLocation
  {
    if Truthy(u.city) && Truthy(u.country) then u.city.value + ", " + u.country.value
    else if Truthy(u.country) then u.country.value
    else UnknownLocation
  }

  /** Whenever a country is known the location ends with it, and a known city leads it. */
  lemma LocationEndsWithCountry(u: UserPresence)
    requires Truthy(u.country)
    ensures var r := Location(u); var c := u.country.value;
      |c| <= |r| && r[|r| - |c|..] == c
      && (Truthy(u.city) ==> StartsWith(r, u.city.value))
  {
    var r := Location(u);
    if Truthy(u.city) {
      assert r == (u.city.value + ", ") + u.country.value;
    }
  }

  // ------------------------------------------------------------ time ago

  /** How long ago a row was last seen, in the buckets the widget shows. */
  datatype TimeAgo = JustNow | OneMinute | Minutes(n: nat, recent: bool) {
    function Text(): string {
      match this
      case JustNow => "🟢 Ahora mismo"
      case OneMinute => "🟢 Hace 1 minuto"
      case Minutes(n, recent) => (if recent then "🟢" else "🟡") + " Hace " + Decimal.Text(n) + " minutos"
    }
    predicate GreenLabel() {
      !Minutes? || recent
    }
  }

  /** Whole seconds between now and the last sighting: `Math.floor(ms / 1000)`. */
  function ElapsedSeconds(elapsedMs: int): (t: int)
    ensures t * 1000 <= elapsedMs < (t + 1) * 1000
  {
    elapsedMs / 1000
  }

  /**
   * The bucket for `t` seconds: under a minute, under two, under five
   * (green), or later (yellow), counting whole minutes in the last two.
   */
  function TimeAgoOf(t: int): (a: TimeAgo)
    ensures a == JustNow <==> t < 60
    ensures a == OneMinute <==> 60 <= t < 120
    ensures a.Minutes? ==> t >= 120 && a.n * 60 <= t < (a.n + 1) * 60
    ensures a.GreenLabel() <==> t < 300
  {
    if t < 60 then JustNow
    else if t < 120 then OneMinute
    else if t < 300 then Minutes(t / 60, true)
    else Minutes(t / 60, false)
  }

  /**
   * In milliseconds since the last sighting: "Ahora mismo" for under a
   * minute, and a green label for under five.
   */
  lemma {:induction false} TimeAgoOfElapsed(elapsedMs: int)
    ensures TimeAgoOf(ElapsedSeconds(elapsedMs)) == JustNow <==> elapsedMs < 60000
    ensures TimeAgoOf(ElapsedSeconds(elapsedMs)) == OneMinute <==> 60000 <= elapsedMs < 120000
    ensures TimeAgoOf(ElapsedSeconds(elapsedMs)).GreenLabel() <==> elapsedMs < 300000
    ensures DotGreen(ElapsedSeconds(elapsedMs)) <==> elapsedMs < 60000
  {
    var t := ElapsedSeconds(elapsedMs);
    SecondsBelow(elapsedMs, t, 60);
    SecondsBelow(elapsedMs, t, 120);
    SecondsBelow(elapsedMs, t, 300);
  }

  /** Whole seconds are below `k` exactly when the milliseconds are below `k * 1000`. */
  lemma SecondsBelow(elapsedMs: int, t: int, k: int)
    requires t * 1000 <= elapsedMs < (t + 1) * 1000
    ensures t < k <==> elapsedMs < k * 1000
  {
    if t < k {
      assert (t + 1) * 1000 <= k * 1000;
    } else {
      assert t * 1000 >= k * 1000;
    }
  }

  /** The minute count is only used in the plural form from two minutes on. */
  lemma PluralMinutesAtLeastTwo(t: int)
    requires TimeAgoOf(t).Minutes?
    ensures TimeAgoOf(t).n >= 2
  {
  }

  /** Later sightings never show a larger minute count. */
  lemma MinutesMonotone(s: int, t: int)
    requires s <= t && TimeAgoOf(s).Minutes?
    ensures TimeAgoOf(t).Minutes? && TimeAgoOf(s).n <= TimeAgoOf(t).n
  {
  }

  /** The status dot pulses green only in the first minute, while the label stays green for five. */
  predicate DotGreen(t: int) {
    t < 60
  }

  lemma DotGreenImpliesGreenLabel(t: int)
    ensures DotGreen(t) ==> TimeAgoOf(t).GreenLabel()
    ensures 60 <= t < 300 ==> !DotGreen(t) && TimeAgoOf(t).GreenLabel()
  {
  }

  // --------------------------------------------------------------- footer

  /** The rows on the home page, in list order (`filter(u => u.page_path === "/")`). */
  function HomeRows(users: seq<UserPresence>): (r: seq<UserPresence>)
    ensures |r| <= |users|
    ensures forall u :: u in r <==> u in users && u.pagePath == "/"
    decreases |users|
  {
    if |users| == 0 then []
    else if users[0].pagePath == "/" then [users[0]] + HomeRows(users[1..])
    else HomeRows(users[1..])
  }

  /** The footer's count of rows on the home page. */
  function HomeCount(users: seq<UserPresence>): (n: nat)
    ensures n <= |users|
    ensures n == 0 <==> forall i :: 0 <= i < |users| ==> users[i].pagePath != "/"
  {
    var r := HomeRows(users);
    if |r| > 0 then
      assert r[0] in r;
      |r|
    else
      |r|
  }

  lemma {:induction false} HomeCountAppend(a: seq<UserPresence>, b: seq<UserPresence>)
    ensures HomeRows(a + b) == HomeRows(a) + HomeRows(b)
    ensures HomeCount(a + b) == HomeCount(a) + HomeCount(b)
    decreases |a|
  {
    if |a| > 0 {
      assert (a + b)[1..] == a[1..] + b;
      HomeCountAppend(a[1..], b);
    } else {
      assert a + b == b;
    }
  }
}
