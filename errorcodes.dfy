/**
 * The process-wide error-code table (pkg/logger/erc.go): a fixed map from a
 * numeric message code to an `ErrorCode` record, and the two lookups that
 * every other component uses.
 */
module ErrorCodes {

  /** Go `MessageCode` is a `uint`. */
  type MessageCode = nat

  const SUCCESS: MessageCode := 10000
  const CHECK: MessageCode := 10001
  const LIMITERROR: MessageCode := 10002
  const TIMEOUT: MessageCode := 10003
  const SUPWARN: MessageCode := 10004
  const STATUSERROR: MessageCode := 10005
  const EDERROR: MessageCode := 10006
  const RPERROR: MessageCode := 10007
  const PVERROR: MessageCode := 10008
  const DVERROR: MessageCode := 10009
  const RWARN: MessageCode := 10010
  const RPWARN: MessageCode := 10011
  const CALLTIMEOUT: MessageCode := 20001
  const CALLERROR: MessageCode := 20002
  const INTERRUPT: MessageCode := 30001

  /** Go `LoggerLevel` is a string type; any string may occur, these are the named ones. */
  type LoggerLevel = string

  const DEBUG: LoggerLevel := "debug"
  const INFO: LoggerLevel := "info"
  const WARN: LoggerLevel := "warn"
  const ERROR: LoggerLevel := "error"
  const FATAL: LoggerLevel := "fatal"

  datatype ErrorCode = ErrorCode(name: string, code: MessageCode, level: LoggerLevel, caption: string)

  /** The Go zero value of `ErrorCode`, which a lookup of a missing key yields. */
  const ZeroErrorCode := ErrorCode("", 0, "", "")

  type Table = map<MessageCode, ErrorCode>

  function Entry(code: MessageCode, level: LoggerLevel, caption: string): ErrorCode {
    ErrorCode("", code, level, caption)
  }

  /** The entries that `InitErrorCode` stores, in ascending code order. */
  const Entries: seq<ErrorCode> := [
    Entry(SUCCESS, INFO, "操作成功"),
    Entry(CHECK, INFO, "请检查"),
    Entry(LIMITERROR, INFO, "超限"),
    Entry(TIMEOUT, INFO, "超时"),
    Entry(SUPWARN, WARN, "补充数据"),
    Entry(STATUSERROR, ERROR, "非常规状态码"),
    Entry(EDERROR, ERROR, "编码或解码错误"),
    Entry(RPERROR, ERROR, "运行时参数错误"),
    Entry(PVERROR, ERROR, "参数未通过校验"),
    Entry(DVERROR, ERROR, "数据结果未通过校验"),
    Entry(RWARN, WARN, "运行时发生异常"),
    Entry(RPWARN, WARN, "运行时发生错误"),
    Entry(CALLTIMEOUT, ERROR, "调用超时"),
    Entry(CALLERROR, ERROR, "调用错误"),
    Entry(INTERRUPT, FATAL, "组件中断")
  ]

  /** Each entry stored under its own code, as the map literal of `InitErrorCode` does. */
  function TableOf(es: seq<ErrorCode>): Table {
    if es == [] then map[] else TableOf(es[..|es| - 1])[es[|es| - 1].code := es[|es| - 1]]
  }

  /** The map that `InitErrorCode` installs. */
  function InitialTable(): Table {
    TableOf(Entries)
  }

  predicate AscendingCodes(es: seq<ErrorCode>) {
    forall i :: 0 < i < |es| ==> es[i - 1].code < es[i].code
  }

  lemma {:induction false} AscendingCodesApart(es: seq<ErrorCode>, i: nat, j: nat)
    requires AscendingCodes(es) && i < j < |es|
    ensures es[i].code < es[j].code
    decreases j - i
  {
    if i + 1 < j {
      AscendingCodesApart(es, i + 1, j);
    }
  }

  /** The codes of a sequence of entries. */
  function Codes(es: seq<ErrorCode>): set<MessageCode> {
    if es == [] then {} else Codes(es[..|es| - 1]) + {es[|es| - 1].code}
  }

  lemma {:induction false} TableOfKeys(es: seq<ErrorCode>)
    ensures TableOf(es).Keys == Codes(es)
  {
    if es != [] {
      TableOfKeys(es[..|es| - 1]);
    }
  }

  lemma {:induction false} CodesAreOfEntries(es: seq<ErrorCode>, k: MessageCode)
    requires k in Codes(es)
    ensures exists i :: 0 <= i < |es| && es[i].code == k
  {
    var n := |es| - 1;
    if k != es[n].code {
      CodesAreOfEntries(es[..n], k);
      var i :| 0 <= i < n && es[..n][i].code == k;
      assert es[i].code == k;
    }
  }

  lemma CodesBelowNext(es: seq<ErrorCode>, k: MessageCode)
    requires AscendingCodes(es) && es != [] && k in Codes(es[..|es| - 1])
    ensures k < es[|es| - 1].code
  {
    var n := |es| - 1;
    CodesAreOfEntries(es[..n], k);
    var i :| 0 <= i < n && es[..n][i].code == k;
    AscendingCodesApart(es, i, n);
  }

  /** A table built from entries with ascending codes has one key per entry. */
  lemma {:induction false} TableOfSize(es: seq<ErrorCode>)
    requires AscendingCodes(es)
    ensures |TableOf(es)| == |es|
  {
    if es != [] {
      var n := |es| - 1;
      assert AscendingCodes(es[..n]);
      TableOfSize(es[..n]);
      TableOfKeys(es[..n]);
      if es[n].code in TableOf(es[..n]) {
        CodesBelowNext(es, es[n].code);
      }
    }
  }

  /** A table built from entries with ascending codes holds every entry under its own code. */
  lemma {:induction false} TableOfLookup(es: seq<ErrorCode>, i: nat)
    requires AscendingCodes(es) && i < |es|
    ensures es[i].code in TableOf(es) && TableOf(es)[es[i].code] == es[i]
  {
    var n := |es| - 1;
    if i < n {
      assert AscendingCodes(es[..n]);
      TableOfLookup(es[..n], i);
      AscendingCodesApart(es, i, n);
    }
  }

  /** Go's `m[k]`: the stored value, or the zero value for a missing key. */
  function Lookup(erc: Table, code: MessageCode): ErrorCode {
    if code in erc then erc[code] else ZeroErrorCode
  }

  /** The entry of the default code, SUCCESS. */
  function GetDefaultErc(erc: Table): (r: ErrorCode)
    ensures SUCCESS in erc ==> r == erc[SUCCESS]
    ensures SUCCESS !in erc ==> r == ZeroErrorCode
  {
    Lookup(erc, SUCCESS)
  }

  /** The entry for `code`, relabelled when `caption` has more than one rune. */
  function GetErc(erc: Table, code: MessageCode, caption: string): (r: ErrorCode)
    ensures r.name == Lookup(erc, code).name
    ensures r.code == Lookup(erc, code).code
    ensures r.level == Lookup(erc, code).level
    ensures |caption| > 1 ==> r.caption == caption
    ensures |caption| <= 1 ==> r == Lookup(erc, code)
  {
    var value := Lookup(erc, code);
    if |caption| > 1 then value.(caption := caption) else value
  }

  /** In the initialised table every entry is stored under its own code, and there are fifteen. */
  lemma InitialTableWellFormed()
    ensures |InitialTable()| == 15
    ensures forall k :: k in InitialTable() ==> InitialTable()[k].code == k
  {
    TableOfSize(Entries);
    forall k | k in InitialTable()
      ensures InitialTable()[k].code == k
    {
      EntryOfKey(k);
    }
  }

  /** Every key of the initialised table is the code of one of `Entries`, stored there. */
  lemma EntryOfKey(k: MessageCode)
    requires k in InitialTable()
    ensures exists i :: 0 <= i < |Entries| && Entries[i].code == k && InitialTable()[k] == Entries[i]
  {
    TableOfKeys(Entries);
    CodesAreOfEntries(Entries, k);
    var i :| 0 <= i < |Entries| && Entries[i].code == k;
    TableOfLookup(Entries, i);
  }

  /** INTERRUPT is the only fatal entry; LIMITERROR and TIMEOUT are stored at level info. */
  lemma InitialTableLevels()
    ensures forall k :: k in InitialTable() && InitialTable()[k].level == FATAL ==> k == INTERRUPT
    ensures INTERRUPT in InitialTable() && InitialTable()[INTERRUPT].level == FATAL
    ensures LIMITERROR in InitialTable() && InitialTable()[LIMITERROR].level == INFO
    ensures TIMEOUT in InitialTable() && InitialTable()[TIMEOUT].level == INFO
  {
    forall k | k in InitialTable() && InitialTable()[k].level == FATAL
      ensures k == INTERRUPT
    {
      EntryOfKey(k);
    }
    TableOfLookup(Entries, 2);
    TableOfLookup(Entries, 3);
    TableOfLookup(Entries, 14);
  }

  /** The default entry of the initialised table is SUCCESS at level info. */
  lemma DefaultIsSuccess()
    ensures GetDefaultErc(InitialTable()) == ErrorCode("", 10000, "info", "操作成功")
  {
    TableOfLookup(Entries, 0);
  }

  /** A code absent from the table (or any code before initialisation) yields zero fields, apart from the relabelling. */
  lemma UnknownCodeIsZero(erc: Table, code: MessageCode, caption: string)
    requires code !in erc
    ensures GetErc(erc, code, caption).code == 0 && GetErc(erc, code, caption).level == ""
    ensures GetErc(erc, code, caption).caption == (if |caption| > 1 then caption else "")
  {
  }

  /**
   * The model of the package-level map `erc`: nil (empty) until
   * `InitErrorCode` assigns the table.
   */
  class Registry {
    var erc: Table

    constructor ()
      ensures erc == map[]
    {
      erc := map[];
    }

    method InitErrorCode()
      modifies this
      ensures erc == InitialTable()
    {
      erc := InitialTable();
    }
  }
}
