/**
 * K8SProperties.java: the "kubernetes" configuration section and its
 * start-up hook, which expands a leading `~` of the kube-config path to the
 * home directory of the user running the service.
 *
 * The expansion is written in the source as
 * `replaceFirst("^~", Matcher.quoteReplacement(home))`; the model follows that
 * construction (a replacement string with escapes, interpreted by the regex
 * engine) and proves it equal to the plain expansion ExpandHome.
 */
module Properties {
  import opened Wrappers

  // ---------------------------------------------------------------------------
  // Replacement strings of java.util.regex
  // ---------------------------------------------------------------------------

  /** Matcher.quoteReplacement: every backslash and dollar sign gets a backslash in front. */
  function QuoteReplacement(s: string): (r: string)
    ensures |r| >= |s|
    ensures (forall i :: 0 <= i < |s| ==> s[i] != '\\' && s[i] != '$') ==> r == s
  {
    if s == [] then []
    else (if s[0] == '\\' || s[0] == '$' then ['\\', s[0]] else [s[0]]) + QuoteReplacement(s[1..])
  }

  /**
   * The text a replacement string stands for when a match is replaced: `\c`
   * stands for the character c, every other character for itself. A trailing
   * lone backslash is an error, and so is a `$` (a group reference; the
   * pattern `^~` has no groups to refer to besides the whole match, and group
   * references are not modelled).
   */
  function ReplacementText(rep: string): Option<string>
  {
    if rep == [] then Some([])
    else if rep[0] == '\\' then
      if |rep| == 1 then None
      else
        match ReplacementText(rep[2..])
        case None => None
        case Some(t) => Some([rep[1]] + t)
    else if rep[0] == '$' then None
    else
      match ReplacementText(rep[1..])
      case None => None
      case Some(t) => Some([rep[0]] + t)
  }

  /** A quoted replacement stands for its original text, whatever characters that holds. */
  lemma {:induction false} QuoteReplacementIsLiteral(s: string)
    ensures ReplacementText(QuoteReplacement(s)) == Some(s)
  {
    if s != [] {
      QuoteReplacementIsLiteral(s[1..]);
      var rest := QuoteReplacement(s[1..]);
      if s[0] == '\\' || s[0] == '$' {
        assert QuoteReplacement(s) == ['\\', s[0]] + rest;
        assert (['\\', s[0]] + rest)[2..] == rest;
      } else {
        assert QuoteReplacement(s) == [s[0]] + rest;
        assert ([s[0]] + rest)[1..] == rest;
      }
      assert [s[0]] + s[1..] == s;
    }
  }

  /**
   * String.replaceFirst("^~", rep): the anchored pattern can only match a `~`
   * at index 0. Without a match the string comes back unchanged and the
   * replacement is never read; with one, the `~` is replaced by the text of
   * rep (None when rep is malformed, where Java throws).
   */
  function ReplaceFirstLeadingTilde(path: string, rep: string): (r: Option<string>)
    ensures !(|path| > 0 && path[0] == '~') ==> r == Some(path)
    ensures |path| > 0 && path[0] == '~' ==> (r.None? <==> ReplacementText(rep).None?)
    ensures r.Some? && |path| > 0 && path[0] == '~' ==> r.value == ReplacementText(rep).value + path[1..]
  {
    if |path| > 0 && path[0] == '~' then
      match ReplacementText(rep)
      case None => None
      case Some(t) => Some(t + path[1..])
    else Some(path)
  }

  // ---------------------------------------------------------------------------
  // Home-directory expansion
  // ---------------------------------------------------------------------------

  /**
   * The expansion the start-up hook intends: a path "~" + rest becomes
   * home + rest; any other path is left alone.
   */
  function ExpandHome(path: string, home: string): (r: string)
    ensures |path| > 0 && path[0] == '~' ==> |r| == |home| + |path| - 1 && r[..|home|] == home && r[|home|..] == path[1..]
    ensures !(|path| > 0 && path[0] == '~') ==> r == path
  {
    if |path| > 0 && path[0] == '~' then home + path[1..] else path
  }

  /**
   * With the quoted home as replacement, replaceFirst performs exactly the
   * intended expansion and never fails, even when home holds `$` or `\`.
   */
  lemma QuotedReplaceFirstExpandsHome(path: string, home: string)
    ensures ReplaceFirstLeadingTilde(path, QuoteReplacement(home)) == Some(ExpandHome(path, home))
  {
    QuoteReplacementIsLiteral(home);
  }

  /**
   * Expansion is idempotent when home itself does not start with `~`: only
   * the leading `~` is replaced, and the expanded path has none left there.
   */
  lemma ExpandHomeOnce(path: string, home: string)
    requires |home| > 0 && home[0] != '~'
    ensures ExpandHome(ExpandHome(path, home), home) == ExpandHome(path, home)
  {
  }

  // ---------------------------------------------------------------------------
  // The configuration object
  // ---------------------------------------------------------------------------

  /** kubernetes.nfs-storage: provisioner and storage-class name. */
  datatype NfsStorageProperty = NfsStorageProperty(provisioner: Option<string>, name: Option<string>)

  /** kubernetes.block-storage: the default block-storage class name. */
  datatype BlockStorageProperty = BlockStorageProperty(name: Option<string>)

  /** The bound "kubernetes" configuration section; every field may be null. */
  class K8SProperties {
    var kubeConfigPath: Option<string>
    var fileSystemId: Option<string>
    var nfsStorage: Option<NfsStorageProperty>
    var blockStorage: Option<BlockStorageProperty>

    constructor (kubeConfigPath: Option<string>, fileSystemId: Option<string>,
                 nfsStorage: Option<NfsStorageProperty>, blockStorage: Option<BlockStorageProperty>)
      ensures this.kubeConfigPath == kubeConfigPath && this.fileSystemId == fileSystemId
      ensures this.nfsStorage == nfsStorage && this.blockStorage == blockStorage
    {
      this.kubeConfigPath := kubeConfigPath;
      this.fileSystemId := fileSystemId;
      this.nfsStorage := nfsStorage;
      this.blockStorage := blockStorage;
    }

    /**
     * init: a null kube-config path stays null; a non-null one is rewritten
     * by replaceFirst("^~", quoteReplacement(home)), which is the home
     * expansion. No other field changes.
     */
    method Init(home: string)
      modifies this`kubeConfigPath
      ensures old(kubeConfigPath).None? ==> kubeConfigPath == None
      ensures old(kubeConfigPath).Some? ==> kubeConfigPath == Some(ExpandHome(old(kubeConfigPath).value, home))
    {
      if kubeConfigPath.Some? {
        var replaced := ReplaceFirstLeadingTilde(kubeConfigPath.value, QuoteReplacement(home));
        QuotedReplaceFirstExpandsHome(kubeConfigPath.value, home);
        kubeConfigPath := Some(replaced.value);
      }
    }
  }
}
