/** The query builder of the onboarding graph: `getQueryData` (object detection and mock
    rows), `buildQuery` (model text to query, then `getQueryData`) and
    `QueryBuilderAgent.execute` (the check that a query and rows came back). The model that
    turns a description into query text is an oracle; the prompt and schema text are not
    modelled. */
module QueryBuilder {
  import opened Wrappers
  import opened Text
  import opened Llm

  /** The objects the mock data knows. */
  datatype SObject = Opportunity | Account | Contact

  datatype FieldValue = Str(s: string) | Int(i: int) | Bool(b: bool)

  /** One mock record, field name to value. */
  type Row = map<string, FieldValue>

  function ObjectName(o: SObject): string {
    match o
    case Opportunity => "Opportunity"
    case Account => "Account"
    case Contact => "Contact"
  }

  /** The order in which the objects are tested (lower first). */
  function Rank(o: SObject): nat {
    match o
    case Opportunity => 0
    case Account => 1
    case Contact => 2
  }

  /** The clause whose presence selects an object, e.g. "FROM Account" (case-sensitive). */
  function FromClause(o: SObject): string {
    "FROM " + ObjectName(o)
  }

  /** The object `getQueryData` detects: the first, in rank order, whose FROM clause occurs
      in the query as a substring; None when no clause occurs. */
  function DetectObject(soql: string): (r: Option<SObject>)
    ensures r.Some? ==> Contains(soql, FromClause(r.value))
    ensures r.Some? ==> forall o :: Rank(o) < Rank(r.value) ==> !Contains(soql, FromClause(o))
    ensures r.None? <==> forall o :: !Contains(soql, FromClause(o))
  {
    if Contains(soql, FromClause(Opportunity)) then Some(Opportunity)
    else if Contains(soql, FromClause(Account)) then Some(Account)
    else if Contains(soql, FromClause(Contact)) then Some(Contact)
    else None
  }

  /** Text appended to a query cannot change an object already detected in it. */
  lemma DetectionSurvivesAppending(soql: string, more: string)
    requires DetectObject(soql).Some?
    ensures DetectObject(soql + more).Some?
    ensures Rank(DetectObject(soql + more).value) <= Rank(DetectObject(soql).value)
  {
    var o := DetectObject(soql).value;
    ContainsExtended(soql, FromClause(o), "", more);
    assert "" + soql + more == soql + more;
  }

  /** The mock rows returned for each object. */
  function MockRows(o: SObject): seq<Row> {
    match o
    case Opportunity => [
      map["Id" := Str("0061a00000A1B2C3"), "Name" := Str("Sample Opportunity 1"),
          "AccountId" := Str("0011a00000X1Y2Z3"), "Amount" := Int(50000),
          "CloseDate" := Str("2024-12-31"), "StageName" := Str("Prospecting"), "IsClosed" := Bool(false)],
      map["Id" := Str("0061a00000D4E5F6"), "Name" := Str("Sample Opportunity 2"),
          "AccountId" := Str("0011a00000G7H8I9"), "Amount" := Int(75000),
          "CloseDate" := Str("2024-11-30"), "StageName" := Str("Closed Won"), "IsClosed" := Bool(true)]
    ]
    case Account => [
      map["Id" := Str("0011a00000X1Y2Z3"), "Name" := Str("Acme Corporation"), "Type" := Str("Customer"),
          "Industry" := Str("Technology"), "BillingCity" := Str("San Francisco"),
          "BillingState" := Str("CA"), "BillingCountry" := Str("USA"), "Phone" := Str("555-0123"),
          "Website" := Str("www.acme.com")],
      map["Id" := Str("0011a00000G7H8I9"), "Name" := Str("Tech Solutions Inc"), "Type" := Str("Customer"),
          "Industry" := Str("Technology"), "BillingCity" := Str("New York"),
          "BillingState" := Str("NY"), "BillingCountry" := Str("USA"), "Phone" := Str("555-0456"),
          "Website" := Str("www.techsolutions.com")]
    ]
    case Contact => [
      map["Id" := Str("0031a00000J1K2L3"), "Name" := Str("John Doe"), "Email" := Str("john.doe@acme.com"),
          "Phone" := Str("555-0789"), "Title" := Str("CEO"), "Department" := Str("Executive"),
          "AccountId" := Str("0011a00000X1Y2Z3")],
      map["Id" := Str("0031a00000M4N5O6"), "Name" := Str("Jane Smith"),
          "Email" := Str("jane.smith@techsolutions.com"), "Phone" := Str("555-0123"), "Title" := Str("CTO"),
          "Department" := Str("Technology"), "AccountId" := Str("0011a00000G7H8I9")]
    ]
  }

  /** Every mock row carries an `Id` field, and every object has rows. */
  lemma MockRowsWellFormed(o: SObject)
    ensures |MockRows(o)| == 2
    ensures forall i :: 0 <= i < |MockRows(o)| ==> "Id" in MockRows(o)[i]
  {
  }

  /** A result envelope: the query, its rows and a timestamp. */
  datatype QueryEnvelope = QueryEnvelope(query: string, results: seq<Row>, timestamp: nat)

  /** The envelope `getQueryData` returns: the query echoed unchanged, the detected
      object's rows, or no rows when no object is detected. */
  function QueryData(soql: string, now: nat): (e: QueryEnvelope)
    ensures e.query == soql && e.timestamp == now
    ensures e.results == [] <==> DetectObject(soql).None?
    ensures DetectObject(soql).Some? ==> e.results == MockRows(DetectObject(soql).value)
    ensures forall i :: 0 <= i < |e.results| ==> "Id" in e.results[i]
  {
    match DetectObject(soql)
    case Some(o) => MockRowsWellFormed(o); QueryEnvelope(soql, MockRows(o), now)
    case None => QueryEnvelope(soql, [], now)
  }

  /** The final result `buildQuery` assembles from the model's text: the stripped text is
      the query, the rows are those `getQueryData` returns for it. */
  function BuiltQuery(modelText: string, now: nat): (e: QueryEnvelope)
    ensures e.query == Strip(modelText)
    ensures e.results == QueryData(Strip(modelText), now).results
    ensures e.timestamp == now
  {
    var soql := Strip(modelText);
    QueryEnvelope(soql, QueryData(soql, now).results, now)
  }

  const MissingQueryOrResults: string := "Missing query or results in the response"

  /** The check in `execute`: an empty query or an empty row list raises. */
  function Checked(e: QueryEnvelope): (r: Result<QueryEnvelope>)
    ensures r.Ok? <==> e.query != "" && e.results != []
    ensures r.Ok? ==> r.value == e
    ensures r.Err? ==> r.error == MissingQueryOrResults
  {
    if e.query == "" || e.results == [] then Err(MissingQueryOrResults) else Ok(e)
  }

  /** What `execute` returns for a given answer of the model: a model failure propagates,
      otherwise the built result passes or fails the check. */
  function ExecuteResult(answer: ModelOutcome, now: nat): Result<QueryEnvelope> {
    match answer
    case Unavailable(error) => Err(error)
    case Responded(reply) => Checked(BuiltQuery(reply.content, now))
  }

  /** A successful execute returns a non-empty, stripped query naming one of the three
      FROM clauses, with that object's mock rows, each carrying an `Id`. */
  lemma {:induction false} ExecuteSuccess(answer: ModelOutcome, now: nat)
    requires ExecuteResult(answer, now).Ok?
    ensures var e := ExecuteResult(answer, now).value;
      && e.query != "" && e.query == Strip(e.query)
      && DetectObject(e.query).Some?
      && Contains(e.query, FromClause(DetectObject(e.query).value))
      && e.results == MockRows(DetectObject(e.query).value)
      && (forall i :: 0 <= i < |e.results| ==> "Id" in e.results[i])
  {
    var e := ExecuteResult(answer, now).value;
    assert e == BuiltQuery(answer.reply.content, now);
    StripIdempotent(answer.reply.content);
  }

  /** Model text naming none of the three objects always fails the check. */
  lemma ExecuteRejectsUnknownObject(reply: Reply, now: nat)
    requires DetectObject(Strip(reply.content)).None?
    ensures ExecuteResult(Responded(reply), now) == Err(MissingQueryOrResults)
  {
  }

  /** The attributes the query tools set on the state they are given. As with the question
      tools, the source assigns attributes on a state that defaults to a plain `{}`; the
      model takes the evident intent, an ordinary field update. */
  class QueryState {
    var generatedQuery: Option<string>
    var queryResults: Option<QueryEnvelope>
    var finalResults: Option<QueryEnvelope>

    constructor ()
      ensures generatedQuery.None? && queryResults.None? && finalResults.None?
    {
      generatedQuery, queryResults, finalResults := None, None, None;
    }
  }

  /** The `getQueryData` tool: stores the envelope in `state.query_results` and returns the
      state and the envelope. */
  method GetQueryData(soql: string, state: QueryState?, now: nat) returns (st: QueryState, e: QueryEnvelope)
    modifies state
    ensures state != null ==> st == state
    ensures state == null ==> fresh(st)
    ensures e == QueryData(soql, now)
    ensures st.queryResults == Some(e)
    ensures st.generatedQuery == (if state == null then None else old(state.generatedQuery))
    ensures st.finalResults == (if state == null then None else old(state.finalResults))
  {
    if state == null {
      st := new QueryState();
    } else {
      st := state;
    }
    e := QueryData(soql, now);
    st.queryResults := Some(e);
  }

  /** `buildQuery`: one model call; on an answer, records the stripped text as
      `generated_query`, runs `getQueryData` on it (which records its envelope), then records
      and returns the final result. A model failure propagates before anything is written. */
  method BuildQuery(description: string, state: QueryState?, llm: ChatModel, now: nat)
    returns (r: Result<QueryEnvelope>, st: QueryState)
    modifies state, llm
    ensures llm.calls == old(llm.calls) + 1 && llm.script == RestOfScript(old(llm.script))
    ensures state != null ==> st == state
    ensures state == null ==> fresh(st)
    ensures NextOutcome(old(llm.script)).Unavailable? ==>
      r == Err(NextOutcome(old(llm.script)).error) && (state != null ==> unchanged(state))
    ensures NextOutcome(old(llm.script)).Responded? ==>
      var text := NextOutcome(old(llm.script)).reply.content;
      && r == Ok(BuiltQuery(text, now))
      && st.generatedQuery == Some(Strip(text))
      && st.queryResults == Some(QueryData(Strip(text), now))
      && st.finalResults == Some(BuiltQuery(text, now))
  {
    if state == null {
      st := new QueryState();
    } else {
      st := state;
    }
    var answer := llm.Invoke();
    if answer.Unavailable? {
      r := Err(answer.error);
      return;
    }
    var final := RecordAnswer(answer.reply.content, st, now);
    r := Ok(final);
  }

  /** What `buildQuery` does with the model's text: records the stripped text as
      `generated_query`, runs `getQueryData` on it, then records the final result. */
  method RecordAnswer(text: string, st: QueryState, now: nat) returns (final: QueryEnvelope)
    modifies st
    ensures final == BuiltQuery(text, now)
    ensures st.generatedQuery == Some(Strip(text))
    ensures st.queryResults == Some(QueryData(Strip(text), now))
    ensures st.finalResults == Some(final)
  {
    var soql := Strip(text);
    st.generatedQuery := Some(soql);
    var same, data := GetQueryData(soql, st, now);
    final := QueryEnvelope(soql, data.results, now);
    st.finalResults := Some(final);
  }

  /** `QueryBuilderAgent.execute`: `buildQuery`, then the check that both a query and rows
      came back; the state keeps whatever `buildQuery` wrote even when the check fails. */
  method Execute(description: string, state: QueryState?, llm: ChatModel, now: nat)
    returns (r: Result<QueryEnvelope>, st: QueryState)
    modifies state, llm
    ensures llm.calls == old(llm.calls) + 1 && llm.script == RestOfScript(old(llm.script))
    ensures state != null ==> st == state
    ensures state == null ==> fresh(st)
    ensures r == ExecuteResult(NextOutcome(old(llm.script)), now)
    ensures NextOutcome(old(llm.script)).Unavailable? ==> state != null ==> unchanged(state)
    ensures NextOutcome(old(llm.script)).Responded? ==>
      var text := NextOutcome(old(llm.script)).reply.content;
      && st.generatedQuery == Some(Strip(text))
      && st.queryResults == Some(QueryData(Strip(text), now))
      && st.finalResults == Some(BuiltQuery(text, now))
  {
    var built;
    built, st := BuildQuery(description, state, llm, now);
    if built.Err? {
      r := built;
    } else {
      r := Checked(built.value);
    }
  }
}
