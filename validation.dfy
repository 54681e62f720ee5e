/**
 * The safety checks on a repository URL and a directory name that keep them from being read
 * as options or as paths outside the work directory. Each returns the message of the first
 * check that fails, or nothing.
 */
module McpValidation {
  import opened Wrappers
  import Text

  const UrlDashMessage: string := "Repository URL must not start with a dash"
  const UrlControlMessage: string := "Repository URL contains invalid control characters"
  const DirDotMessage: string := "Directory name must not be '.' or '..'"
  const DirSeparatorMessage: string := "Directory name must not contain path separators"
  const DirDashMessage: string := "Directory name must not start with a dash"
  const DirControlMessage: string := "Directory name contains invalid control characters"

  predicate IsDotName(d: string) {
    d == "." || d == ".."
  }

  predicate HasSeparator(d: string) {
    '/' in d || '\\' in d
  }

  predicate StartsWithDash(s: string) {
    |s| > 0 && s[0] == '-'
  }

  /** `validateGitUrl`. */
  function ValidateGitUrl(url: string): (r: Option<string>)
    ensures r.None? <==> !StartsWithDash(url) && !Text.HasControlChar(url)
    ensures StartsWithDash(url) ==> r == Some(UrlDashMessage)
    ensures !StartsWithDash(url) && Text.HasControlChar(url) ==> r == Some(UrlControlMessage)
  {
    if Text.StartsWith(url, "-") then Some(UrlDashMessage)
    else if Text.HasControlChar(url) then Some(UrlControlMessage)
    else None
  }

  /** `validateDirectoryName`: dot names, then separators, then a leading dash, then control characters. */
  function ValidateDirectoryName(d: string): (r: Option<string>)
    ensures r.None? <==> !IsDotName(d) && !HasSeparator(d) && !StartsWithDash(d) && !Text.HasControlChar(d)
    ensures IsDotName(d) ==> r == Some(DirDotMessage)
    ensures !IsDotName(d) && HasSeparator(d) ==> r == Some(DirSeparatorMessage)
    ensures !IsDotName(d) && !HasSeparator(d) && StartsWithDash(d) ==> r == Some(DirDashMessage)
    ensures !IsDotName(d) && !HasSeparator(d) && !StartsWithDash(d) && Text.HasControlChar(d) ==> r == Some(DirControlMessage)
  {
    if d == "." || d == ".." then Some(DirDotMessage)
    else if '/' in d || '\\' in d then Some(DirSeparatorMessage)
    else if Text.StartsWith(d, "-") then Some(DirDashMessage)
    else if Text.HasControlChar(d) then Some(DirControlMessage)
    else None
  }

  /** A name the directory check accepts is a single path segment that cannot leave the work directory. */
  lemma AcceptedNameIsOneSegment(d: string)
    requires ValidateDirectoryName(d).None?
    ensures forall i :: 0 <= i < |d| ==> d[i] != '/' && d[i] != '\\' && !Text.IsControl(d[i])
    ensures d != "." && d != ".." && (d == [] || d[0] != '-')
  {
  }
}
