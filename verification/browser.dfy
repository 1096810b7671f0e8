/**
 * The parts of a browser `window` the adapters read: its location, and the
 * standalone-mode rule that api-adapter.js and auth-adapter.ts both apply.
 * A missing window (server-side rendering, tests) is `None`.
 */
module Browser {
  import opened Common

  /** `window.location`; `port` is "" when the URL has none */
  datatype Location = Location(hostname: string, port: string, pathname: string, origin: string)

  /** `hostname === 'localhost' || hostname === '127.0.0.1'` */
  predicate IsLocalHost(hostname: string) {
    hostname == "localhost" || hostname == "127.0.0.1"
  }

  /**
   * `parseInt(port)`: the value of the leading decimal digits, None for NaN.
   * Location ports carry no sign or whitespace, so those parts of parseInt do not arise.
   */
  function ParseInt(s: string): (r: Option<nat>)
    ensures r.None? <==> (|s| == 0 || !IsDigit(s[0]))
    ensures AllDigits(s) && |s| > 0 ==> r == Some(DigitsValue(s))
  {
    var d := LeadingDigits(s);
    if |d| == 0 then None
    else
      assert AllDigits(s) ==> d == s;
      Some(DigitsValue(d))
  }

  /** The ports the plugin's own dev servers use, 5182 up to but excluding 6000 */
  predicate PluginDevPort(port: string) {
    port != "" && ParseInt(port).Some? && 5182 <= ParseInt(port).value < 6000
  }

  /** `isStandaloneMode()`: on localhost, either a `/dev.html` page or a plugin dev port */
  function IsStandaloneMode(window: Option<Location>): (r: bool)
    ensures window.None? ==> !r
    ensures r ==> window.value.hostname == "localhost"
    ensures window.Some? && window.value.hostname == "localhost" && Contains(window.value.pathname, "/dev.html") ==> r
    ensures window.Some? && |window.value.port| > 0 && AllDigits(window.value.port) ==>
      (r <==> window.value.hostname == "localhost"
              && (Contains(window.value.pathname, "/dev.html") || 5182 <= DigitsValue(window.value.port) < 6000))
  {
    match window
    case None => false
    case Some(loc) =>
      if loc.hostname == "localhost" && Contains(loc.pathname, "/dev.html") then true
      else if loc.hostname == "localhost" && PluginDevPort(loc.port) then true
      else false
  }

  /** Every port from 5182 to 5999 written in decimal makes localhost standalone, whatever the path */
  lemma PluginPortRangeIsStandalone(n: nat, pathname: string, origin: string)
    requires 5182 <= n < 6000
    ensures IsStandaloneMode(Some(Location("localhost", NatToString(n), pathname, origin)))
  {
    DigitsValueOfNatToString(n);
  }

  /** The core's own dev ports (5173, 5174) and the production port ("") are integrated unless the page is `/dev.html` */
  lemma CorePortsAreIntegrated(hostname: string, port: string, pathname: string, origin: string)
    requires port in {"5173", "5174", ""}
    requires !Contains(pathname, "/dev.html")
    ensures !IsStandaloneMode(Some(Location(hostname, port, pathname, origin)))
  {
    if port == "5173" {
      assert DigitsValue("5173") == 5173 by {
        assert "5173"[..3] == "517" && "517"[..2] == "51" && "51"[..1] == "5";
      }
    } else if port == "5174" {
      assert DigitsValue("5174") == 5174 by {
        assert "5174"[..3] == "517" && "517"[..2] == "51" && "51"[..1] == "5";
      }
    }
  }

  /** Standalone needs the exact hostname "localhost": 127.0.0.1 is always integrated */
  lemma LoopbackAddressIsIntegrated(port: string, pathname: string, origin: string)
    ensures !IsStandaloneMode(Some(Location("127.0.0.1", port, pathname, origin)))
  {
  }
}
