/**
 * The plugin frontend's API configuration (frontend/config.ts): how the API
 * base URL is chosen from the page location and the build environment, and
 * how API and file URLs are joined onto it.
 */
module FrontendConfig {
  import opened Common
  import opened Js
  import opened Browser

  /** `import.meta.env`: absent outside a Vite build; inside one, `VITE_API_URL` may be unset */
  datatype Env = NoEnv | ViteEnv(viteApiUrl: Option<string>)

  const DefaultApiBase := "http://localhost:3000"
  const PluginSandboxApiBase := "http://localhost:3001"

  /** `resolveApiBase()` */
  function ResolveApiBase(window: Option<Location>, env: Env): (r: string)
    ensures window.Some? && IsLocalHost(window.value.hostname) && window.value.port == "5174" ==> r == PluginSandboxApiBase
    ensures window.Some? && IsLocalHost(window.value.hostname) && window.value.port == "5173" ==> r == ""
    ensures !(window.Some? && IsLocalHost(window.value.hostname) && window.value.port in {"5173", "5174"}) ==>
      r == (if env.ViteEnv? then OrStr(env.viteApiUrl, DefaultApiBase) else DefaultApiBase)
  {
    if window.Some? && IsLocalHost(window.value.hostname) && window.value.port == "5174" then PluginSandboxApiBase
    else if window.Some? && IsLocalHost(window.value.hostname) && window.value.port == "5173" then ""
    else if env.ViteEnv? then OrStr(env.viteApiUrl, DefaultApiBase)
    else DefaultApiBase
  }

  /** The base is relative ("") exactly on the core's dev server: an empty `VITE_API_URL` is falsy and falls back */
  lemma RelativeBaseOnlyOnCoreDevServer(window: Option<Location>, env: Env)
    ensures ResolveApiBase(window, env) == "" <==>
      (window.Some? && IsLocalHost(window.value.hostname) && window.value.port == "5173")
  {
  }

  /** `api(path)`: the base, then one '/' unless the path brings its own, then the path */
  function Api(base: string, path: string): (r: string)
    ensures path == "" ==> r == base
    ensures StartsWith(r, base)
    ensures path != "" ==> StartsWith(r[|base|..], "/") && EndsWith(r, path)
    ensures path != "" ==> |r| - |base| - |path| == (if StartsWith(path, "/") then 0 else 1)
  {
    if path == "" then base
    else base + (if StartsWith(path, "/") then "" else "/") + path
  }

  /** A path without its leading '/' gives the same URL as with it */
  lemma ApiAddsSlashOnce(base: string, path: string)
    requires path != "" && !StartsWith(path, "/")
    ensures Api(base, path) == Api(base, "/" + path)
  {
    assert StartsWith("/" + path, "/");
  }

  /** `FILE_BASE`: the API base, or the default when that is relative */
  function FileBase(apiBase: string): (r: string)
    ensures r != ""
    ensures apiBase != "" ==> r == apiBase
    ensures apiBase == "" ==> r == "http://localhost:3000"
  {
    if apiBase != "" then apiBase else DefaultApiBase
  }

  /** On the core's dev server API calls stay relative, while files still go to the core backend on port 3000 */
  lemma CoreDevServerFilesGoToPort3000(hostname: string, pathname: string, origin: string, env: Env)
    requires IsLocalHost(hostname)
    ensures var base := ResolveApiBase(Some(Location(hostname, "5173", pathname, origin)), env);
      base == "" && FileBase(base) == "http://localhost:3000"
  {
  }

  /** Everywhere else files are served from the API base itself */
  lemma FileBaseFollowsNonEmptyApiBase(window: Option<Location>, env: Env)
    requires !(window.Some? && IsLocalHost(window.value.hostname) && window.value.port == "5173")
    ensures FileBase(ResolveApiBase(window, env)) == ResolveApiBase(window, env)
  {
    RelativeBaseOnlyOnCoreDevServer(window, env);
  }

  /** `s.replace(/^\/+/, '')` */
  function StripLeadingSlashes(s: string): (r: string)
    ensures EndsWith(s, r)
    ensures !StartsWith(r, "/")
    ensures forall i :: 0 <= i < |s| - |r| ==> s[i] == '/'
  {
    if |s| > 0 && s[0] == '/' then StripLeadingSlashes(s[1..]) else s
  }

  /** `s.replace(/^uploads\/+uploads\//, 'uploads/')`: one collapse, anchored at the start */
  function CollapseUploads(s: string): string {
    if StartsWith(s, "uploads/") then
      var rest := StripLeadingSlashes(s[7..]);
      if StartsWith(rest, "uploads/") then "uploads/" + rest[8..] else s
    else s
  }

  /** `fileUrl(path)` */
  function FileUrl(fileBase: string, path: string): (r: string)
    ensures path == "" ==> r == fileBase
    ensures path != "" ==> StartsWith(r, fileBase + "/")
  {
    if path == "" then fileBase
    else fileBase + "/" + CollapseUploads(StripLeadingSlashes(path))
  }

  /** `n` slashes */
  function Slashes(n: nat): (r: string)
    ensures |r| == n && forall i :: 0 <= i < n ==> r[i] == '/'
  {
    if n == 0 then "" else "/" + Slashes(n - 1)
  }

  lemma {:induction false} StripSlashesPrefix(n: nat, p: string)
    requires !StartsWith(p, "/")
    ensures StripLeadingSlashes(Slashes(n) + p) == p
  {
    if n > 0 {
      assert (Slashes(n) + p)[1..] == Slashes(n - 1) + p;
      StripSlashesPrefix(n - 1, p);
    } else {
      assert Slashes(0) + p == p;
    }
  }

  /** Any number of leading slashes is ignored: `fileUrl("///a") == fileUrl("a")` */
  lemma LeadingSlashesIgnored(fileBase: string, n: nat, p: string)
    requires p != "" && !StartsWith(p, "/")
    ensures FileUrl(fileBase, Slashes(n) + p) == FileUrl(fileBase, p)
  {
    StripSlashesPrefix(n, p);
    StripSlashesPrefix(0, p);
    assert Slashes(0) + p == p;
  }

  /** `uploads` followed by slashes starts with `uploads/`, and what follows the word is the slashes and the tail */
  lemma UploadsThenSlashes(n: nat, t: string)
    requires n >= 1
    ensures var s := "uploads" + (Slashes(n) + t);
      StartsWith(s, "uploads/") && s[7..] == Slashes(n) + t
  {
    var s := "uploads" + (Slashes(n) + t);
    assert s[..7] == "uploads";
    assert s[7] == '/';
    assert s[..8] == s[..7] + [s[7]];
  }

  lemma CollapseDoubled(n: nat, rest: string)
    requires n >= 1
    ensures CollapseUploads("uploads" + Slashes(n) + "uploads/" + rest) == "uploads/" + rest
  {
    var t := "uploads/" + rest;
    var s := "uploads" + Slashes(n) + "uploads/" + rest;
    assert s == "uploads" + (Slashes(n) + t);
    UploadsThenSlashes(n, t);
    assert t[..8] == "uploads/" && t[8..] == rest && t[0] == 'u';
    StripSlashesPrefix(n, t);
  }

  /** `uploads/` + one or more slashes + `uploads/` collapses to one `uploads/` */
  lemma DoubledUploadsCollapse(fileBase: string, n: nat, rest: string)
    requires n >= 1
    ensures FileUrl(fileBase, "uploads" + Slashes(n) + "uploads/" + rest) == fileBase + "/uploads/" + rest
  {
    var s := "uploads" + Slashes(n) + "uploads/" + rest;
    assert s[0] == 'u';
    assert StripLeadingSlashes(s) == s;
    CollapseDoubled(n, rest);
  }

  /** A triple `uploads/` prefix read as the word, one slash and the remaining two prefixes */
  lemma TripleUploadsShape(rest: string)
    ensures "uploads/" + "uploads/" + "uploads/" + rest == "uploads" + Slashes(1) + "uploads/" + ("uploads/" + rest)
    ensures "uploads/" + ("uploads/" + rest) == "uploads/" + "uploads/" + rest
  {
    assert Slashes(1) == "/";
    assert "uploads/" == "uploads" + "/";
  }

  /** The collapse happens once: after a triple `uploads/` prefix two remain */
  lemma UploadsCollapseOnce(rest: string)
    ensures CollapseUploads("uploads/" + "uploads/" + "uploads/" + rest) == "uploads/" + "uploads/" + rest
  {
    TripleUploadsShape(rest);
    CollapseDoubled(1, "uploads/" + rest);
  }

  /**
   * Paths whose `uploads/` prefix (after the slashes) is not doubled are kept
   * as they are, among them the common single-prefix path `uploads/a.pdf`
   */
  lemma OtherPathsKept(fileBase: string, p: string)
    requires p != "" && !StartsWith(p, "/")
    requires !(StartsWith(p, "uploads/") && StartsWith(StripLeadingSlashes(p[7..]), "uploads/"))
    ensures FileUrl(fileBase, p) == fileBase + "/" + p
  {
  }

  /** One leading slash more changes nothing after stripping */
  lemma StripOneMoreSlash(name: string)
    ensures StripLeadingSlashes("/" + name) == StripLeadingSlashes(name)
  {
    assert ("/" + name)[1..] == name;
  }

  /** After the word `uploads` comes the slash and the rest of the path */
  lemma UploadsTail(name: string)
    ensures ("uploads/" + name)[7..] == "/" + name
  {
    var p := "uploads/" + name;
    assert |p| == 8 + |name|;
    forall i | 0 <= i < |p| - 7
      ensures p[7..][i] == ("/" + name)[i]
    {
      if i == 0 {
        assert p[7] == '/';
      } else {
        assert p[7 + i] == name[i - 1];
      }
    }
  }

  /** A path starting with `uploads/` has no slash to strip */
  lemma UploadsPathUnstripped(name: string)
    ensures StripLeadingSlashes("uploads/" + name) == "uploads/" + name
  {
    assert ("uploads/" + name)[0] == 'u';
  }

  /** A path starting with `uploads/` starts with `uploads/` */
  lemma UploadsPathPrefix(name: string)
    ensures StartsWith("uploads/" + name, "uploads/")
  {
    assert ("uploads/" + name)[..8] == "uploads/";
  }

  /** The anchored replace leaves a single `uploads/` prefix alone */
  lemma SingleUploadsNotCollapsed(name: string)
    requires !StartsWith(StripLeadingSlashes(name), "uploads/")
    ensures CollapseUploads("uploads/" + name) == "uploads/" + name
  {
    UploadsPathPrefix(name);
    UploadsTail(name);
    StripOneMoreSlash(name);
  }

  /** A single `uploads/` prefix, as stored paths carry it, reaches the file base unchanged */
  lemma SingleUploadsPrefixKept(fileBase: string, name: string)
    requires !StartsWith(StripLeadingSlashes(name), "uploads/")
    ensures FileUrl(fileBase, "uploads/" + name) == fileBase + "/uploads/" + name
  {
    UploadsPathUnstripped(name);
    SingleUploadsNotCollapsed(name);
    SlashThenUploads(fileBase, name);
  }

  /** Appending `/` and then `uploads/` + name is appending `/uploads/` and then the name */
  lemma SlashThenUploads(fileBase: string, name: string)
    ensures fileBase + "/" + ("uploads/" + name) == fileBase + "/uploads/" + name
  {
    assert "/uploads/" == "/" + "uploads/";
  }
}
