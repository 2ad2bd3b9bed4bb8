/** Locating the bundled helper executables (`mcdk.exe`, `mcdbg.exe`). Paths follow Node's
    Windows rules for `path.isAbsolute`; a joined path is kept as its base and segments
    (no normalisation of `..` or separators). */
module Paths {

  datatype Path =
    | Given(s: string)                       // a configured path used as it is
    | Joined(base: string, parts: seq<string>)  // `path.join(base, ...parts)`

  predicate IsSeparator(c: char) { c == '/' || c == '\\' }

  /** `path.win32.isAbsolute(p)`: a leading separator, or a drive letter, a colon and a
      separator. */
  predicate IsAbsolute(p: string) {
    |p| > 0 && (IsSeparator(p[0])
                || (|p| > 2 && (('A' <= p[0] <= 'Z') || ('a' <= p[0] <= 'z'))
                    && p[1] == ':' && IsSeparator(p[2])))
  }

  /** A path that does not depend on the current directory of the extension host. */
  predicate Anchored(p: Path) {
    match p
    case Given(s) => IsAbsolute(s)
    case Joined(base, _) => IsAbsolute(base)
  }

  /** `getMcdkPath` / `getMcdbgPath`: a non-empty configured path, taken as it is when
      absolute and relative to the workspace otherwise; without one, the executable bundled
      under the extension (`bundled` is its path below the extension directory). */
  function ToolPath(workspace: string, configured: string, extensionPath: string,
                    bundled: seq<string>): (r: Path)
    ensures configured != "" ==> r == Given(configured) || r == Joined(workspace, [configured])
    ensures configured == "" ==> r == Joined(extensionPath, bundled)
  {
    if configured != "" then
      if IsAbsolute(configured) then Given(configured) else Joined(workspace, [configured])
    else
      Joined(extensionPath, bundled)
  }

  /** With an absolute workspace and extension directory, the tool path never depends on the
      current directory, and a configured path is never looked up elsewhere than where it
      says. */
  lemma ToolPathAnchored(workspace: string, configured: string, extensionPath: string,
                         bundled: seq<string>)
    requires IsAbsolute(workspace) && IsAbsolute(extensionPath)
    ensures Anchored(ToolPath(workspace, configured, extensionPath, bundled))
    ensures IsAbsolute(configured) ==> ToolPath(workspace, configured, extensionPath, bundled) == Given(configured)
  {
  }

  /** A configured path that starts neither with a separator nor with a drive letter, a colon
      and a separator (a plain relative path such as `tools\\mcdk.exe`, or a drive-relative one
      such as `C:mcdk.exe`) is joined to the workspace. */
  lemma RelativeConfiguredPathJoined(workspace: string, configured: string, extensionPath: string,
                                     bundled: seq<string>)
    requires configured != "" && !IsSeparator(configured[0])
    requires |configured| > 2 && configured[1] == ':' ==> !IsSeparator(configured[2])
    ensures ToolPath(workspace, configured, extensionPath, bundled) == Joined(workspace, [configured])
  {
  }
}
