/**
 * CommandDto.java: the three command builders that turn a request into the
 * exact argv handed to an external tool (helm, the vcluster CLI, kubectl).
 *
 * The static configuration the source reads (the kube-config path after home
 * expansion and the default block-storage class name) is the explicit
 * parameter `cfg`, and the operating-system test of the JSON quoting helper is
 * the explicit parameter `onWindows`.
 */
module CommandDto {
  import opened Wrappers
  import Util

  /** What the builders read from the configuration. */
  datatype Config = Config(kubeConfigPath: Option<string>, blockStorageName: string)

  const InstallBase: seq<string> := ["helm", "install"]
  const ConnectBase: seq<string> := ["vcluster", "connect"]
  const PatchBase: seq<string> := ["kubectl", "patch", "-p"]

  const ChartRepository: string := "https://charts.loft.sh"
  const ChartName: string := "vcluster"
  const ChartVersion: string := "0.15.5"

  // ---------------------------------------------------------------------------
  // withKubeConfig
  // ---------------------------------------------------------------------------

  /** The credential flag: the vcluster CLI spells it "--kube-config", helm and kubectl "--kubeconfig". */
  function KubeConfigFlag(isVcluster: bool): string
  {
    if isVcluster then "--kube-config" else "--kubeconfig"
  }

  /**
   * withKubeConfig: no tokens when no kube-config path is configured, else
   * the flag followed by the path; never a single token.
   */
  function WithKubeConfig(cfg: Config, isVcluster: bool): (r: seq<string>)
    ensures |r| == (if cfg.kubeConfigPath.Some? then 2 else 0)
    ensures cfg.kubeConfigPath.Some? ==> r[0] == KubeConfigFlag(isVcluster) && r[1] == cfg.kubeConfigPath.value
  {
    match cfg.kubeConfigPath
    case None => []
    case Some(path) => [KubeConfigFlag(isVcluster), path]
  }

  // ---------------------------------------------------------------------------
  // JSONValidator
  // ---------------------------------------------------------------------------

  /** The number of double quotes in s. */
  function QuoteCount(s: string): nat
  {
    if s == [] then 0 else (if s[0] == '"' then 1 else 0) + QuoteCount(s[1..])
  }

  /**
   * replaceAll("\"", "\\\\\""): every double quote becomes backslash + quote.
   * The result grows by one character per quote, never starts with a quote,
   * and every quote in it is preceded by a backslash.
   */
  function EscapeQuotes(s: string): (r: string)
    ensures |r| == |s| + QuoteCount(s)
    ensures r != [] ==> r[0] != '"'
    ensures forall i :: 0 < i < |r| && r[i] == '"' ==> r[i - 1] == '\\'
  {
    if s == [] then []
    else
      var head := if s[0] == '"' then ['\\', '"'] else [s[0]];
      var rest := EscapeQuotes(s[1..]);
      assert forall i :: |head| <= i < |head + rest| ==> (head + rest)[i] == rest[i - |head|];
      head + rest
  }

  /** Reads an escaped text back: backslash + quote stands for a quote, anything else for itself. */
  function UnescapeQuotes(s: string): string
  {
    if s == [] then []
    else if |s| >= 2 && s[0] == '\\' && s[1] == '"' then ['"'] + UnescapeQuotes(s[2..])
    else [s[0]] + UnescapeQuotes(s[1..])
  }

  /** Escaping loses nothing: reading the escaped text back gives the original, so only quotes changed. */
  lemma {:induction false} UnescapeEscapeQuotes(s: string)
    ensures UnescapeQuotes(EscapeQuotes(s)) == s
  {
    if s != [] {
      var rest := EscapeQuotes(s[1..]);
      UnescapeEscapeQuotes(s[1..]);
      if s[0] == '"' {
        assert EscapeQuotes(s) == ['\\', '"'] + rest;
        assert (['\\', '"'] + rest)[2..] == rest;
      } else {
        assert EscapeQuotes(s) == [s[0]] + rest;
        assert ([s[0]] + rest)[1..] == rest;
      }
      assert [s[0]] + s[1..] == s;
    }
  }

  /** A text without double quotes is left exactly as it was. */
  lemma {:induction false} EscapeQuotesWithoutQuotes(s: string)
    requires '"' !in s
    ensures EscapeQuotes(s) == s
  {
    if s != [] {
      assert '"' !in s[1..];
      EscapeQuotesWithoutQuotes(s[1..]);
    }
  }

  /**
   * JSONValidator: on Windows every double quote of the JSON body is escaped,
   * elsewhere the body is passed on unchanged.
   */
  function JsonValidator(onWindows: bool, json: string): (r: string)
    ensures !onWindows ==> r == json
    ensures onWindows ==> |r| == |json| + QuoteCount(json) && UnescapeQuotes(r) == json
  {
    if onWindows then
      UnescapeEscapeQuotes(json);
      EscapeQuotes(json)
    else json
  }

  // ---------------------------------------------------------------------------
  // The three requests and their commands
  // ---------------------------------------------------------------------------

  /** InstallCommand: create a space by installing the vcluster chart. */
  datatype InstallCommand = InstallCommand(spaceId: string, vclusterNamespace: string, chartPath: string)

  /** DeleteStorageClass: remove a storage class inside a space; the type may be null. */
  datatype DeleteStorageClass = DeleteStorageClass(spaceId: string, storageClassType: Option<string>)

  /** ResourceQuotaPatch: patch the resource quota of a space with a JSON body. */
  datatype ResourceQuotaPatch = ResourceQuotaPatch(resourceQuota: string, spaceId: string)

  /** The tokens of an install request that follow the credential tokens. */
  function InstallArgs(c: InstallCommand): seq<string>
  {
    [c.spaceId, "--create-namespace", "-n", c.vclusterNamespace, "--repo",
     ChartRepository, ChartName, "--version", ChartVersion, "-f", c.chartPath]
  }

  /**
   * InstallCommand.toCMD, the concatAllArray of three arrays: "helm install",
   * the credential tokens, then the space id, "--create-namespace", "-n", the
   * namespace, "--repo", the chart repository, the chart name, "--version",
   * the pinned version, "-f" and the values path; 13 tokens without a
   * kube-config, 15 with one.
   */
  function InstallCmd(cfg: Config, c: InstallCommand): (r: seq<string>)
    ensures |r| == (if cfg.kubeConfigPath.Some? then 15 else 13)
    ensures r == InstallBase + WithKubeConfig(cfg, false) + InstallArgs(c)
  {
    var kube := WithKubeConfig(cfg, false);
    Util.FlattenThree(InstallBase, kube, InstallArgs(c));
    Util.Flatten([InstallBase, kube, InstallArgs(c)])
  }

  /** The storage-class name to delete: the requested type unless it is null or empty, else the configured default. */
  function StorageClassName(cfg: Config, d: DeleteStorageClass): string
  {
    match d.storageClassType
    case None => cfg.blockStorageName
    case Some(t) => if t == [] then cfg.blockStorageName else t
  }

  /** The tokens of a delete request that follow the credential tokens. */
  function DeleteStorageClassArgs(cfg: Config, d: DeleteStorageClass): seq<string>
  {
    [d.spaceId, "--", "kubectl", "delete", "sc", StorageClassName(cfg, d)]
  }

  /**
   * DeleteStorageClass.toCMD, the concatAllArray of three arrays: "vcluster
   * connect", the credential tokens, the space id, then "-- kubectl delete sc"
   * and the storage-class name. The last token is the requested type when it
   * is non-empty, and the configured default when it is null or empty.
   */
  function DeleteStorageClassCmd(cfg: Config, d: DeleteStorageClass): (r: seq<string>)
    ensures |r| == (if cfg.kubeConfigPath.Some? then 10 else 8)
    ensures r == ConnectBase + WithKubeConfig(cfg, true) + DeleteStorageClassArgs(cfg, d)
    ensures d.storageClassType.Some? && d.storageClassType.value != [] ==> r[|r| - 1] == d.storageClassType.value
    ensures d.storageClassType.None? || d.storageClassType == Some([]) ==> r[|r| - 1] == cfg.blockStorageName
  {
    var kube := WithKubeConfig(cfg, true);
    Util.FlattenThree(ConnectBase, kube, DeleteStorageClassArgs(cfg, d));
    Util.Flatten([ConnectBase, kube, DeleteStorageClassArgs(cfg, d)])
  }

  /** The tokens of a patch request between the base tokens and the credential tokens. */
  function PatchArgs(onWindows: bool, q: ResourceQuotaPatch): seq<string>
  {
    [JsonValidator(onWindows, q.resourceQuota), "resourcequota", q.spaceId + "-quota",
     "--namespace", "vcluster-" + q.spaceId]
  }

  /**
   * ResourceQuotaPatch.toCMD, the concatAllArray of three arrays: "kubectl
   * patch -p", the JSON body as JSONValidator leaves it, "resourcequota",
   * "<spaceId>-quota", "--namespace", "vcluster-<spaceId>", and only then
   * the credential tokens.
   */
  function PatchCmd(cfg: Config, onWindows: bool, q: ResourceQuotaPatch): (r: seq<string>)
    ensures |r| == (if cfg.kubeConfigPath.Some? then 10 else 8)
    ensures r == PatchBase + PatchArgs(onWindows, q) + WithKubeConfig(cfg, false)
    ensures r[3] == JsonValidator(onWindows, q.resourceQuota)
    ensures r[5] == q.spaceId + "-quota" && r[7] == "vcluster-" + q.spaceId
  {
    var kube := WithKubeConfig(cfg, false);
    Util.FlattenThree(PatchBase, PatchArgs(onWindows, q), kube);
    Util.Flatten([PatchBase, PatchArgs(onWindows, q), kube])
  }

  // ---------------------------------------------------------------------------
  // Where the credential tokens go
  // ---------------------------------------------------------------------------

  /**
   * Configuring a kube-config path inserts exactly the two credential tokens
   * and changes nothing else: at index 2 for install ("--kubeconfig") and
   * delete ("--kube-config"), at the very end for patch ("--kubeconfig").
   */
  lemma KubeConfigPlacement(path: string, blockStorageName: string, onWindows: bool,
                            c: InstallCommand, d: DeleteStorageClass, q: ResourceQuotaPatch)
    ensures var with := Config(Some(path), blockStorageName);
            var without := Config(None, blockStorageName);
            && InstallCmd(with, c) == InstallCmd(without, c)[..2] + ["--kubeconfig", path] + InstallCmd(without, c)[2..]
            && DeleteStorageClassCmd(with, d)
               == DeleteStorageClassCmd(without, d)[..2] + ["--kube-config", path] + DeleteStorageClassCmd(without, d)[2..]
            && PatchCmd(with, onWindows, q) == PatchCmd(without, onWindows, q) + ["--kubeconfig", path]
  {
  }

  // ---------------------------------------------------------------------------
  // Reading a request back from its command
  // ---------------------------------------------------------------------------

  /** The install request an argv spells out for configuration cfg, if it has the install shape. */
  function ParseInstall(cfg: Config, argv: seq<string>): Option<InstallCommand>
  {
    var kube := WithKubeConfig(cfg, false);
    var k := |kube|;
    if && |argv| == 13 + k && argv[..2 + k] == InstallBase + kube
       && argv[3 + k] == "--create-namespace" && argv[4 + k] == "-n" && argv[6 + k] == "--repo"
       && argv[7 + k] == ChartRepository && argv[8 + k] == ChartName && argv[9 + k] == "--version"
       && argv[10 + k] == ChartVersion && argv[11 + k] == "-f"
    then Some(InstallCommand(argv[2 + k], argv[5 + k], argv[12 + k]))
    else None
  }

  /**
   * The install command determines its request: the caller's strings, empty
   * ones included, are recovered verbatim from their fixed positions, and
   * every argv the reader accepts is the command of the request it reads.
   */
  lemma InstallRoundTrip(cfg: Config, c: InstallCommand, argv: seq<string>)
    ensures ParseInstall(cfg, InstallCmd(cfg, c)) == Some(c)
    ensures ParseInstall(cfg, argv).Some? ==> InstallCmd(cfg, ParseInstall(cfg, argv).value) == argv
  {
    var kube := WithKubeConfig(cfg, false);
    var k := |kube|;
    assert InstallCmd(cfg, c)[..2 + k] == InstallBase + kube;
    if ParseInstall(cfg, argv).Some? {
      var r := InstallCmd(cfg, ParseInstall(cfg, argv).value);
      forall i | 0 <= i < |argv|
        ensures r[i] == argv[i]
      {
        if i < 2 + k {
          assert argv[i] == argv[..2 + k][i];
        }
      }
    }
  }

  /** The space id and storage-class name an argv spells out, if it has the delete shape. */
  function ParseDeleteStorageClass(cfg: Config, argv: seq<string>): Option<(string, string)>
  {
    var kube := WithKubeConfig(cfg, true);
    var k := |kube|;
    if && |argv| == 8 + k && argv[..2 + k] == ConnectBase + kube
       && argv[3 + k] == "--" && argv[4 + k] == "kubectl" && argv[5 + k] == "delete" && argv[6 + k] == "sc"
    then Some((argv[2 + k], argv[7 + k]))
    else None
  }

  /**
   * The delete command determines the space id and the effective storage-class
   * name (the requested type, or the default when it is null or empty), and
   * every argv the reader accepts with a non-empty name is the command of
   * that request.
   */
  lemma DeleteStorageClassRoundTrip(cfg: Config, d: DeleteStorageClass, argv: seq<string>)
    ensures ParseDeleteStorageClass(cfg, DeleteStorageClassCmd(cfg, d)) == Some((d.spaceId, StorageClassName(cfg, d)))
    ensures ParseDeleteStorageClass(cfg, argv).Some? && ParseDeleteStorageClass(cfg, argv).value.1 != [] ==>
              var parsed := ParseDeleteStorageClass(cfg, argv).value;
              DeleteStorageClassCmd(cfg, DeleteStorageClass(parsed.0, Some(parsed.1))) == argv
  {
  }

  /**
   * The delete command does not determine the requested type: a null type,
   * an empty type and the configured default name all give the same argv.
   * Only the space id and the effective name can be read back.
   */
  lemma DeleteStorageClassDefaultsCoincide(cfg: Config, spaceId: string)
    ensures DeleteStorageClassCmd(cfg, DeleteStorageClass(spaceId, None))
            == DeleteStorageClassCmd(cfg, DeleteStorageClass(spaceId, Some("")))
    ensures cfg.blockStorageName != [] ==>
              DeleteStorageClassCmd(cfg, DeleteStorageClass(spaceId, None))
              == DeleteStorageClassCmd(cfg, DeleteStorageClass(spaceId, Some(cfg.blockStorageName)))
  {
  }

  /**
   * The patch request an argv spells out, if it has the patch shape: the space
   * id is read from the namespace token and must agree with the quota name;
   * on Windows the JSON body is read back through UnescapeQuotes.
   */
  function ParsePatch(cfg: Config, onWindows: bool, argv: seq<string>): Option<ResourceQuotaPatch>
  {
    var kube := WithKubeConfig(cfg, false);
    if && |argv| == 8 + |kube| && argv[..3] == PatchBase && argv[4] == "resourcequota" && argv[6] == "--namespace"
       && |argv[7]| >= 9 && argv[7][..9] == "vcluster-" && argv[5] == argv[7][9..] + "-quota"
       && argv[8..] == kube
    then Some(ResourceQuotaPatch(if onWindows then UnescapeQuotes(argv[3]) else argv[3], argv[7][9..]))
    else None
  }

  /** The patch command determines its request, JSON body included, on every platform. */
  lemma PatchRoundTrip(cfg: Config, onWindows: bool, q: ResourceQuotaPatch)
    ensures ParsePatch(cfg, onWindows, PatchCmd(cfg, onWindows, q)) == Some(q)
  {
  }
}
