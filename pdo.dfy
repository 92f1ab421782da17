/** The PDO plugin: which PDO calls it hooks, how it reads a PDO data source name (DSN), and the
    per-thread map from PDO object handles to parsed DSNs that its constructor hook fills. */
module Pdo {
  import opened Wrappers
  import opened Strings
  import Execute
  import Plugin

  /** The plugin's class list; it has no function-name prefix. */
  const CLASS_NAMES: seq<string> := ["PDO", "PDOStatement"]
  const PDO_PLUGIN: Plugin.PluginSpec := Plugin.PluginSpec("pdo", Some(CLASS_NAMES), None)

  /** The `PDO` methods that get the (no-op before, no-op after) hook pair of `hook_pdo`. */
  const PDO_METHODS: seq<string> := ["exec", "query", "prepare", "commit", "begintransaction", "rollback"]

  datatype HookKind =
    | ConstructHook        // `hook_pdo_construct`
    | PdoHook              // `hook_pdo`
    | StatementExecuteHook // `hook_pdo_statement_execute`

  /** `PdoPlugin::hook`: the hook table. */
  function Hook(className: Option<string>, functionName: string): (r: Option<HookKind>)
    ensures r == Some(ConstructHook) <==> className == Some("PDO") && functionName == "__construct"
    ensures r == Some(PdoHook) <==> className == Some("PDO") && functionName in PDO_METHODS
    ensures r == Some(StatementExecuteHook) <==> className == Some("PDOStatement") && functionName == "execute"
    ensures r.Some? ==> className.Some? && className.value in CLASS_NAMES
  {
    match className
    case Some(c) =>
      if c == "PDO" && functionName == "__construct" then Some(ConstructHook)
      else if c == "PDO" && functionName in PDO_METHODS then Some(PdoHook)
      else if c == "PDOStatement" && functionName == "execute" then Some(StatementExecuteHook)
      else None
    case None => None
  }

  /** Every call the table hooks is one the plugin claims by its class list, though not every
      claimed call is hooked. */
  lemma HookedCallsAreClaimed(className: Option<string>, functionName: string)
    ensures Hook(className, functionName).Some? ==> Plugin.Matches(PDO_PLUGIN, className, functionName)
    ensures Plugin.Matches(PDO_PLUGIN, className, functionName) <==> className.Some? && className.value in CLASS_NAMES
  {
  }

  /** A parsed DSN: the driver name, the rest of the DSN, and `host:port`. */
  datatype Dsn = Dsn(dbType: string, dataSource: string, peer: string)

  datatype DsnError =
    | UnknownDatasource   // no `:` in the DSN
    | UnknownValue        // a `;`-separated item with no `=`

  const UNKNOWN: string := "unknown"

  /** The port a driver listens on by default. */
  function DefaultPort(dbType: string): (port: string)
    ensures dbType == "mysql" ==> port == "3306"
    ensures dbType == "oci" ==> port == "1521"
    ensures dbType == "sqlsrv" ==> port == "1433"
    ensures dbType == "pgsql" ==> port == "5432"
    ensures dbType !in ["mysql", "oci", "sqlsrv", "pgsql"] ==> port == UNKNOWN
  {
    match dbType
    case "mysql" => "3306"
    case "oci" => "1521"
    case "sqlsrv" => "1433"
    case "pgsql" => "5432"
    case _ => UNKNOWN
  }

  /** The value of the LAST `key=value` item whose key is `key`, or `default` when there is none.
      An item is cut at its first `=`, so the value may contain more of them. */
  function LastValueOr(items: seq<string>, key: string, default: string): string
  {
    if items == [] then default
    else
      var rest := LastValueOr(items[..|items| - 1], key, default);
      match SplitOnce(items[|items| - 1], '=')
      case Some((k, v)) => if k == key then v else rest
      case None => rest
  }

  /** One more item: it decides the key when it is an item for that key. */
  lemma LastValueStep(items: seq<string>, i: nat, key: string, default: string)
    requires i < |items|
    ensures LastValueOr(items[..i + 1], key, default)
      == if HasKey(items[i], key) then SplitOnce(items[i], '=').value.1 else LastValueOr(items[..i], key, default)
  {
    assert items[..i + 1][..i] == items[..i];
  }

  /** The key of a `key=value` item. */
  predicate HasKey(item: string, key: string) {
    SplitOnce(item, '=').Some? && SplitOnce(item, '=').value.0 == key
  }

  /** Without an item for `key`, the default stands. */
  lemma {:induction false} LastValueDefault(items: seq<string>, key: string, default: string)
    requires forall j :: 0 <= j < |items| ==> !HasKey(items[j], key)
    ensures LastValueOr(items, key, default) == default
  {
    if items != [] {
      var init := items[..|items| - 1];
      assert forall j :: 0 <= j < |init| ==> init[j] == items[j];
      LastValueDefault(init, key, default);
      assert !HasKey(items[|items| - 1], key);
    }
  }

  /** The value found is the default or the value of some item for `key`, and no later item has
      that key. */
  lemma {:induction false} LastValueFound(items: seq<string>, key: string, default: string)
    ensures var v := LastValueOr(items, key, default);
      v == default
      || exists j :: 0 <= j < |items| && SplitOnce(items[j], '=') == Some((key, v))
           && forall k :: j < k < |items| ==> !HasKey(items[k], key)
  {
    if items != [] {
      var n := |items| - 1;
      var init := items[..n];
      LastValueFound(init, key, default);
      if !HasKey(items[n], key) {
        var v := LastValueOr(items, key, default);
        assert v == LastValueOr(init, key, default);
        if v != default {
          var j :| 0 <= j < |init| && SplitOnce(init[j], '=') == Some((key, v))
            && forall k :: j < k < |init| ==> !HasKey(init[k], key);
          assert items[j] == init[j];
          assert forall k :: j < k < |items| ==> !HasKey(items[k], key) by {
            forall k | j < k < |items| ensures !HasKey(items[k], key) {
              if k < n { assert items[k] == init[k]; }
            }
          }
        }
      }
    }
  }

  /** Every item of a well-formed data source contains `=`. */
  predicate AllPairs(items: seq<string>) {
    forall j :: 0 <= j < |items| ==> '=' in items[j]
  }

  /** A well-formed prefix grows by one well-formed item. */
  lemma PairsPrefix(items: seq<string>, i: nat)
    requires i < |items| && AllPairs(items[..i]) && '=' in items[i]
    ensures AllPairs(items[..i + 1])
  {
    assert items[..i + 1] == items[..i] + [items[i]];
    AllPairsSnoc(items[..i], items[i]);
  }

  /** `Dsn::from_str`, as a reference: the parts around the first `:`, an error when any item of
      the data source lacks `=`, and otherwise the last `host` and the last `port`. */
  function FromStr(s: string): (r: Result<Dsn, DsnError>)
    ensures r == Failure(UnknownDatasource) <==> ':' !in s
    ensures r.Success? ==> r.value.dbType + ":" + r.value.dataSource == s && ':' !in r.value.dbType
    ensures r.Success? ==> AllPairs(Split(r.value.dataSource, ';'))
  {
    match SplitOnce(s, ':')
    case None => Failure(UnknownDatasource)
    case Some((dbType, dataSource)) =>
      var items := Split(dataSource, ';');
      if !AllPairs(items) then Failure(UnknownValue)
      else
        var host := LastValueOr(items, "host", UNKNOWN);
        var port := LastValueOr(items, "port", DefaultPort(dbType));
        Success(Dsn(dbType, dataSource, host + ":" + port))
  }

  /** The loop of `Dsn::from_str`: one pass over the items, overwriting the host and the port as
      their keys come by and stopping at the first item without `=`. */
  method ScanItems(items: seq<string>, defaultPort: string) returns (r: Option<(string, string)>)
    ensures r.None? <==> !AllPairs(items)
    ensures r.Some? ==> r.value == (LastValueOr(items, "host", UNKNOWN), LastValueOr(items, "port", defaultPort))
  {
    var host := UNKNOWN;
    var port := defaultPort;
    for i := 0 to |items|
      invariant AllPairs(items[..i])
      invariant host == LastValueOr(items[..i], "host", UNKNOWN)
      invariant port == LastValueOr(items[..i], "port", defaultPort)
    {
      LastValueStep(items, i, "host", UNKNOWN);
      LastValueStep(items, i, "port", defaultPort);
      var kv := SplitOnce(items[i], '=');
      if kv.None? {
        assert !AllPairs(items) by { assert '=' !in items[i]; }
        return None;
      }
      PairsPrefix(items, i);
      var (k, v) := kv.value;
      if k == "host" {
        host := v;
      } else if k == "port" {
        port := v;
      }
    }
    assert items[..|items|] == items;
    r := Some((host, port));
  }

  /** `Dsn::from_str` as the source runs it. */
  method ParseDsn(s: string) returns (r: Result<Dsn, DsnError>)
    ensures r == FromStr(s)
  {
    var pieces := SplitOnce(s, ':');
    if pieces.None? {
      return Failure(UnknownDatasource);
    }
    var (dbType, dataSource) := pieces.value;
    var scanned := ScanItems(Split(dataSource, ';'), DefaultPort(dbType));
    if scanned.None? {
      return Failure(UnknownValue);
    }
    var (host, port) := scanned.value;
    r := Success(Dsn(dbType, dataSource, host + ":" + port));
  }

  /** An item appended at the end decides its own key; the value is everything after the item's
      first `=`, so it may hold more of them. */
  lemma LastValueAppend(items: seq<string>, item: string, default: string)
    requires SplitOnce(item, '=').Some?
    ensures LastValueOr(items + [item], SplitOnce(item, '=').value.0, default) == SplitOnce(item, '=').value.1
  {
    assert (items + [item])[..|items|] == items;
  }

  /** An item appended at the end changes no other key's value. */
  lemma OtherKeyUnchanged(items: seq<string>, item: string, key: string, default: string)
    requires !HasKey(item, key)
    ensures LastValueOr(items + [item], key, default) == LastValueOr(items, key, default)
  {
    assert (items + [item])[..|items|] == items;
  }

  /** An item with `=` keeps the data source well formed. */
  lemma AllPairsSnoc(items: seq<string>, item: string)
    requires AllPairs(items) && '=' in item
    ensures AllPairs(items + [item])
  {
    var longer := items + [item];
    forall j | 0 <= j < |longer| ensures '=' in longer[j] {
      if j < |items| { assert longer[j] == items[j]; }
    }
  }

  /** The data source with `;` and one more item appended splits into the old items plus that one. */
  lemma AppendItem(dataSource: string, item: string)
    requires ';' !in item
    ensures Split(dataSource + ";" + item, ';') == Split(dataSource, ';') + [item]
  {
    assert dataSource + ";" + item == dataSource + [';'] + item;
    SplitSnoc(dataSource, ';', item);
  }

  /** The item `host=<host>`, spelled out. */
  lemma HostItem(host: string)
    requires ';' !in host
    ensures "host=" + host == "host" + "=" + host
    ensures ';' !in "host=" + host && '=' in "host=" + host
    ensures SplitOnce("host=" + host, '=') == Some(("host", host))
  {
    var item := "host=" + host;
    SplitOnceAt("host", '=', host);
    assert item[4] == '=';
    forall k | 0 <= k < |item| ensures item[k] != ';' {
      if k >= 5 { assert item[k] == host[k - 5]; }
    }
  }

  /** `FromStr` on a DSN whose driver name has no `:`, stated on the items of its data source. */
  lemma FromStrOf(dbType: string, dataSource: string)
    requires ':' !in dbType
    ensures var items := Split(dataSource, ';');
      FromStr(dbType + ":" + dataSource)
      == if !AllPairs(items) then Failure(UnknownValue)
         else Success(Dsn(dbType, dataSource,
                          LastValueOr(items, "host", UNKNOWN) + ":" + LastValueOr(items, "port", DefaultPort(dbType))))
  {
    SplitOnceAt(dbType, ':', dataSource);
  }

  /** A later `host=` item overrides every earlier host and leaves the port alone. */
  lemma LastHostWins(dbType: string, dataSource: string, host: string)
    requires FromStr(dbType + ":" + dataSource).Success?
    requires ':' !in dbType && ';' !in host
    ensures FromStr(dbType + ":" + (dataSource + ";" + ("host=" + host)))
      == Success(Dsn(dbType, dataSource + ";" + ("host=" + host),
                     host + ":" + LastValueOr(Split(dataSource, ';'), "port", DefaultPort(dbType))))
  {
    var items := Split(dataSource, ';');
    var item := "host=" + host;
    var longer := dataSource + ";" + item;
    FromStrOf(dbType, dataSource);
    FromStrOf(dbType, longer);
    HostItem(host);
    AppendItem(dataSource, item);
    AllPairsSnoc(items, item);
    LastValueAppend(items, item, UNKNOWN);
    OtherKeyUnchanged(items, item, "port", DefaultPort(dbType));
  }

  /** With neither key given, the peer is the unknown host on the driver's default port. */
  lemma DefaultPeer(dbType: string, dataSource: string)
    requires FromStr(dbType + ":" + dataSource).Success?
    requires ':' !in dbType
    requires forall item <- Split(dataSource, ';') :: !HasKey(item, "host") && !HasKey(item, "port")
    ensures FromStr(dbType + ":" + dataSource).value.peer == UNKNOWN + ":" + DefaultPort(dbType)
  {
    SplitOnceAt(dbType, ':', dataSource);
    var items := Split(dataSource, ';');
    assert forall j :: 0 <= j < |items| ==> items[j] in items;
    LastValueDefault(items, "host", UNKNOWN);
    LastValueDefault(items, "port", DefaultPort(dbType));
  }

  /** An empty data source is one empty item, which has no `=`. */
  lemma EmptyDataSourceRejected(dbType: string)
    requires ':' !in dbType
    ensures FromStr(dbType + ":") == Failure(UnknownValue)
  {
    SplitOnceAt(dbType, ':', "");
    assert dbType + [':'] + "" == dbType + ":";
    assert Split("", ';') == [""];
  }

  /** A trailing `;` leaves an empty last item, so the DSN is rejected. */
  lemma TrailingSemicolonRejected(dbType: string, dataSource: string)
    requires ':' !in dbType
    ensures FromStr(dbType + ":" + dataSource + ";") == Failure(UnknownValue)
  {
    SplitOnceAt(dbType, ':', dataSource + ";");
    assert dbType + ":" + dataSource + ";" == dbType + [':'] + (dataSource + ";");
    assert dataSource + ";" == dataSource + [';'] + "";
    SplitSnoc(dataSource, ';', "");
    var items := Split(dataSource, ';') + [""];
    assert items[|items| - 1] == "";
  }

  /** A PDO object handle (`u32`). */
  type Handle = h: nat | h < 0x1_0000_0000

  /** The constructor's first argument: a PHP string, whose bytes may not be UTF-8 (`None`), or any
      other value. */
  datatype Param = StrParam(text: Option<string>) | OtherParam

  datatype ConstructError =
    | ArgumentCountIncorrect
    | ThisEmpty
    | DsnNotString
    | DsnNotUtf8
    | DsnUnparsable(reason: DsnError)

  /** What the before-hook of `PDO::__construct` checks, in order, and the entry it would add. */
  function ConstructCheck(numArgs: nat, thisHandle: Option<Handle>, dsn: Param): (r: Result<(Handle, Dsn), ConstructError>)
    ensures r.Success? <==>
      numArgs >= 1 && thisHandle.Some? && dsn.StrParam? && dsn.text.Some? && FromStr(dsn.text.value).Success?
    ensures r.Success? ==> r.value == (thisHandle.value, FromStr(dsn.text.value).value)
    ensures numArgs < 1 ==> r == Failure(ArgumentCountIncorrect)
    ensures numArgs >= 1 && thisHandle.None? ==> r == Failure(ThisEmpty)
    ensures numArgs >= 1 && thisHandle.Some? && !dsn.StrParam? ==> r == Failure(DsnNotString)
    ensures numArgs >= 1 && thisHandle.Some? && dsn.StrParam? && dsn.text.None? ==> r == Failure(DsnNotUtf8)
    ensures r.Failure? && r.error.DsnUnparsable? ==>
      dsn.StrParam? && dsn.text.Some? && FromStr(dsn.text.value) == Failure(r.error.reason)
  {
    if Execute.ValidateNumArgs(numArgs, 1).Failure? then Failure(ArgumentCountIncorrect)
    else if thisHandle.None? then Failure(ThisEmpty)
    else if !dsn.StrParam? then Failure(DsnNotString)
    else if dsn.text.None? then Failure(DsnNotUtf8)
    else match FromStr(dsn.text.value)
      case Failure(e) => Failure(DsnUnparsable(e))
      case Success(d) => Success((thisHandle.value, d))
  }

  /** The thread-local `DSN_MAP`. */
  class DsnMap {
    var entries: map<Handle, Dsn>

    constructor ()
      ensures entries == map[]
    {
      entries := map[];
    }

    /** The before-hook of `PDO::__construct`: on success the object's handle maps to its parsed
        DSN, replacing an older entry for the same handle; on any failure the map is unchanged. */
    method ConstructBefore(numArgs: nat, thisHandle: Option<Handle>, dsn: Param) returns (r: Result<(), ConstructError>)
      modifies this
      ensures r.Success? <==> ConstructCheck(numArgs, thisHandle, dsn).Success?
      ensures r.Failure? ==> r.error == ConstructCheck(numArgs, thisHandle, dsn).error && entries == old(entries)
      ensures r.Success? ==>
        entries == old(entries)[thisHandle.value := FromStr(dsn.text.value).value]
    {
      var valid := Execute.ValidateNumArgs(numArgs, 1);
      if valid.Failure? {
        return Failure(ArgumentCountIncorrect);
      }
      if thisHandle.None? {
        return Failure(ThisEmpty);
      }
      var handle := thisHandle.value;
      if !dsn.StrParam? {
        return Failure(DsnNotString);
      }
      if dsn.text.None? {
        return Failure(DsnNotUtf8);
      }
      var parsed := ParseDsn(dsn.text.value);
      if parsed.Failure? {
        return Failure(DsnUnparsable(parsed.error));
      }
      entries := entries[handle := parsed.value];
      r := Success(());
    }
  }
}
