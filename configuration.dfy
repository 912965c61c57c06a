/** The checks `DNS_RR_Scanner.__init__` makes on its arguments. */
module Configuration {
  import opened Wrappers
  import opened PyText
  import opened Records

  /** The value passed as `qtype`: a `str`, or any other Python value. */
  datatype QTypeArg = Str(text: string) | NotStr

  /** Why construction raised. */
  datatype ConfigError =
    | InvalidQType(message: string)   // the exception the constructor means to raise
    | NameError(name: string)         // a reference to an undefined name

  /** What a constructed scanner holds. */
  datatype Settings = Settings(qtype: QType, numThreads: int, isDebug: bool)

  const QTypeErrorMsg: string := "Qtype must be a valid type: A, NS, AAAA, TXT, SOA, MX"

  /** `valid_qtypes`, in the constructor's order. */
  const ValidQTypeNames: seq<string> := ["AAAA", "A", "NS", "TXT", "SOA", "MX"]

  /** Threads per CPU when no count is given. */
  const ThreadsPerCpu: nat := 20

  /** The query type that a name stands for, if it is one of `valid_qtypes`. */
  function ParseQType(name: string): (r: Option<QType>)
    ensures r.Some? <==> name in ValidQTypeNames
    ensures r.Some? ==> QTypeName(r.value) == name
  {
    if name == "AAAA" then Some(AAAA)
    else if name == "A" then Some(A)
    else if name == "NS" then Some(NS)
    else if name == "TXT" then Some(TXT)
    else if name == "SOA" then Some(SOA)
    else if name == "MX" then Some(MX)
    else None
  }

  /** Every query type is named by exactly one valid name and parses back from it. */
  lemma ParseQTypeName(q: QType)
    ensures ParseQType(QTypeName(q)) == Some(q)
  {
  }

  /** The settings `__init__` stores, with the error it is meant to raise for a bad query
      type. Construction succeeds exactly when `qtype` is a string whose upper-case form
      is a valid type; the stored type is that form; a missing thread count becomes
      `cpus * 20` and a given one is kept as it is, unchecked. */
  function Configure(numThreads: Option<int>, verbose: bool, qtype: QTypeArg, cpus: nat): (r: Result<Settings, ConfigError>)
    ensures r.Ok? <==> qtype.Str? && Upper(qtype.text) in ValidQTypeNames
    ensures r.Ok? ==> QTypeName(r.value.qtype) == Upper(qtype.text)
    ensures r.Ok? ==> r.value.numThreads == (if numThreads.None? then cpus * ThreadsPerCpu else numThreads.value)
    ensures r.Ok? ==> r.value.isDebug == verbose
    ensures r.Err? ==> r.error == InvalidQType(QTypeErrorMsg)
  {
    if qtype.NotStr? then Err(InvalidQType(QTypeErrorMsg))
    else
      match ParseQType(Upper(qtype.text))
      case None => Err(InvalidQType(QTypeErrorMsg))
      case Some(q) =>
        Ok(Settings(q, if numThreads.None? then cpus * ThreadsPerCpu else numThreads.value, verbose))
  }

  /** `__init__` as written: both `raise` statements name `qtype_error_msg` without
      `self.`, so what is raised is a NameError for that name. */
  function ConfigureAsWritten(numThreads: Option<int>, verbose: bool, qtype: QTypeArg, cpus: nat): (r: Result<Settings, ConfigError>)
    ensures r.Ok? <==> qtype.Str? && Upper(qtype.text) in ValidQTypeNames
    ensures r.Err? ==> r.error == NameError("qtype_error_msg")
  {
    if qtype.NotStr? then Err(NameError("qtype_error_msg"))
    else
      match ParseQType(Upper(qtype.text))
      case None => Err(NameError("qtype_error_msg"))
      case Some(q) =>
        Ok(Settings(q, if numThreads.None? then cpus * ThreadsPerCpu else numThreads.value, verbose))
  }

  /** The code as written accepts and rejects the same arguments as intended and stores
      the same settings; only the raised error differs. */
  lemma AsWrittenAgrees(numThreads: Option<int>, verbose: bool, qtype: QTypeArg, cpus: nat)
    ensures ConfigureAsWritten(numThreads, verbose, qtype, cpus).Ok? <==> Configure(numThreads, verbose, qtype, cpus).Ok?
    ensures Configure(numThreads, verbose, qtype, cpus).Ok? ==>
              ConfigureAsWritten(numThreads, verbose, qtype, cpus) == Configure(numThreads, verbose, qtype, cpus)
    ensures Configure(numThreads, verbose, qtype, cpus).Err? ==>
              ConfigureAsWritten(numThreads, verbose, qtype, cpus) == Err(NameError("qtype_error_msg"))
  {
  }

  /** The `qtype` texts that select type `q`: those as long as its name whose every
      character is the capital at that place, its lower-case letter, or U+0131 for I and
      U+017F for S. */
  lemma QTypeSpellings(numThreads: Option<int>, verbose: bool, text: string, cpus: nat, q: QType)
    ensures Upper(text) == QTypeName(q) <==>
              |text| == |QTypeName(q)| && forall i :: 0 <= i < |text| ==> UpperFrom(text[i], QTypeName(q)[i])
    ensures (Configure(numThreads, verbose, Str(text), cpus).Ok? && Configure(numThreads, verbose, Str(text), cpus).value.qtype == q)
            <==> Upper(text) == QTypeName(q)
  {
    UpperTo(text, QTypeName(q));
    var r := Configure(numThreads, verbose, Str(text), cpus);
    if Upper(text) == QTypeName(q) {
      ParseQTypeName(q);
    }
    if r.Ok? && r.value.qtype == q {
      assert QTypeName(q) == Upper(text);
    }
  }

  /** A lower-case name is accepted; "ptr" is rejected, and the code as written raises a
      NameError for it instead of the intended message. */
  lemma QTypeExamples()
    ensures Configure(None, false, Str("mx"), 4) == Ok(Settings(MX, 80, false))
    ensures Configure(None, false, Str("ptr"), 4) == Err(InvalidQType(QTypeErrorMsg))
    ensures ConfigureAsWritten(None, false, Str("ptr"), 4) == Err(NameError("qtype_error_msg"))
  {
    assert Upper("mx") == "MX";
    assert Upper("ptr") == "PTR";
  }
}
