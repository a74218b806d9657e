/** The `analysis_results` table (api/database.py): one record per ticker,
    with the simple pipeline's chart, score and posts, the hybrid chart and the
    time of the last write. The database is a map from ticker to record; a
    session is counted, not modelled. */
module Store {
  import opened Outcomes

  /** A UTC instant, in microseconds (the resolution of `datetime`). */
  type Timestamp = int

  const MicrosPerHour: int := 3_600_000_000

  datatype Record = Record(
    ticker: string,
    arimaPlot: Option<string>,
    sentiment: Option<real>,
    sentimentPosts: Option<string>,
    hybridPlot: Option<string>,
    lastUpdated: Timestamp)

  /** Python truthiness of a nullable text column: present and non-empty. */
  predicate Present(text: Option<string>) {
    text.Some? && text.value != ""
  }

  /** `AnalysisResult(ticker=t)`: every column NULL except the ticker and the
      `last_updated` default. */
  function NewRecord(ticker: string, now: Timestamp): (r: Record)
    ensures r.ticker == ticker && r.lastUpdated == now
    ensures !Present(r.arimaPlot) && !Present(r.hybridPlot) && r.sentiment.None?
  {
    Record(ticker, None, None, None, None, now)
  }

  /** The unique index on `ticker`: each key holds the record of that ticker. */
  predicate KeyedByTicker(records: map<string, Record>) {
    forall t :: t in records ==> records[t].ticker == t
  }

  /** `.filter(AnalysisResult.ticker == t).first()`. */
  function Lookup(records: map<string, Record>, ticker: string): (r: Option<Record>)
    requires KeyedByTicker(records)
    ensures r.Some? <==> ticker in records
    ensures r.Some? ==> r.value == records[ticker] && r.value.ticker == ticker
  {
    if ticker in records then Some(records[ticker]) else None
  }

  class Database {
    var records: map<string, Record>
    var openSessions: nat

    ghost predicate Valid()
      reads this
    {
      KeyedByTicker(records)
    }

    constructor ()
      ensures Valid() && records == map[] && openSessions == 0
    {
      records := map[];
      openSessions := 0;
    }

    /** `SessionLocal()`. */
    method OpenSession()
      modifies this`openSessions
      ensures openSessions == old(openSessions) + 1
    {
      openSessions := openSessions + 1;
    }

    /** `db.close()`. */
    method CloseSession()
      requires openSessions > 0
      modifies this`openSessions
      ensures openSessions == old(openSessions) - 1
    {
      openSessions := openSessions - 1;
    }

    /** `db.commit()` of one new or changed record. */
    method Commit(rec: Record)
      requires Valid()
      modifies this`records
      ensures Valid()
      ensures records == old(records)[rec.ticker := rec]
    {
      records := records[rec.ticker := rec];
    }
  }
}
