/** The result record a worker produces for one domain name: `get_resource_record`
    and `run_thread` of `DNS_RR_Scanner`, with the resolver call and the timestamp
    formatting replaced by an abstract `Attempt` that says how they ended. */
module Records {

  /** The six query types the scanner accepts. */
  datatype QType = AAAA | A | NS | TXT | SOA | MX

  function QTypeName(q: QType): string {
    match q
    case AAAA => "AAAA"
    case A => "A"
    case NS => "NS"
    case TXT => "TXT"
    case SOA => "SOA"
    case MX => "MX"
  }

  /** The five statuses a record can carry: NOERROR, NOANSWER, NXDOMAIN, TIMEOUT and
      EXCEPTION in the JSON record's 'status' field. */
  datatype Status = NoError | NoAnswer | NxDomain | Timeout | Exception

  /** How the resolver call ended. */
  datatype Outcome =
    | Answered(texts: seq<string>)  // it returned; the text form of each answer
    | NoAnswerRaised
    | NxDomainRaised
    | TimeoutRaised
    | OtherRaised                   // any other exception, also one raised while converting the answers

  /** What happened around one `run_thread` call. */
  datatype Attempt =
    | Stamped(outcome: Outcome)       // the timestamp was formatted, then the resolver ended with `outcome`
    | StampFailed(retried: bool)      // formatting the first timestamp raised; `retried`: the one in
                                      // `run_thread`'s handler worked

  /** One output record: the JSON object's name, status and answers (its time field is
      not modelled). */
  datatype ResultRecord = ResultRecord(name: string, status: Status, answers: seq<string>)

  /** What a call returned: a record, or an exception that escaped it. */
  datatype Lookup = Produced(record: ResultRecord) | Escaped

  /** Answers are listed only in a NOERROR record. */
  predicate WellFormed(r: ResultRecord) {
    r.status != NoError ==> r.answers == []
  }

  /** `get_resource_record`: the resolver's outcome as a record for `domain`. When the
      timestamp could not be formatted, the handler refers to the unbound timestamp and
      that error escapes. */
  function GetResourceRecord(domain: string, attempt: Attempt): (r: Lookup)
    ensures r.Escaped? <==> attempt.StampFailed?
    ensures r.Produced? ==> r.record.name == domain && WellFormed(r.record)
    ensures r.Produced? ==> (r.record.status == NoError <==> attempt.outcome.Answered?)
    ensures attempt.Stamped? && attempt.outcome.Answered? ==> r.record.answers == attempt.outcome.texts
    ensures attempt == Stamped(NoAnswerRaised) ==> r.record.status == NoAnswer
    ensures attempt == Stamped(NxDomainRaised) ==> r.record.status == NxDomain
    ensures attempt == Stamped(TimeoutRaised) ==> r.record.status == Timeout
    ensures attempt == Stamped(OtherRaised) ==> r.record.status == Exception
  {
    match attempt
    case StampFailed(_) => Escaped
    case Stamped(outcome) =>
      Produced(
        match outcome
        case Answered(texts) => ResultRecord(domain, NoError, texts)
        case NoAnswerRaised => ResultRecord(domain, NoAnswer, [])
        case NxDomainRaised => ResultRecord(domain, NxDomain, [])
        case TimeoutRaised => ResultRecord(domain, Timeout, [])
        case OtherRaised => ResultRecord(domain, Exception, []))
  }

  /** `run_thread`: `get_resource_record`, with any exception it lets out turned into an
      EXCEPTION record. Only a failure of its own handler's timestamp escapes. */
  function RunThread(load: string, attempt: Attempt): (r: Lookup)
    ensures r.Escaped? <==> attempt == StampFailed(false)
    ensures r.Produced? ==> r.record.name == load && WellFormed(r.record)
    ensures attempt.Stamped? ==> r == GetResourceRecord(load, attempt)
    ensures attempt == StampFailed(true) ==> r.record == ResultRecord(load, Exception, [])
  {
    match GetResourceRecord(load, attempt)
    case Produced(rec) => Produced(rec)
    case Escaped => if attempt.retried then Produced(ResultRecord(load, Exception, [])) else Escaped
  }

  /** The names of a sequence of records, in order. */
  function Names(rs: seq<ResultRecord>): seq<string>
  {
    seq(|rs|, i requires 0 <= i < |rs| => rs[i].name)
  }

  lemma NamesAppend(a: seq<ResultRecord>, b: seq<ResultRecord>)
    ensures Names(a + b) == Names(a) + Names(b)
  {
  }
}
