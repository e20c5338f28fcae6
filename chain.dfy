/**
 * The failure chain shared, by copy, between a response and every wrapper
 * derived from it, and the reporter failures are sent to.
 */
module Chains {
  import opened Wrappers
  import opened JsonTree

  /** Why an assertion failed. The wording of the reported message is not modelled. */
  datatype Failure =
    | Message(message: string)                   // an explicit `fail(message)`
    | StatusMismatch(expectedStatus: int, actualStatus: int)
    | ContentTypeNotEmpty(contentType: string)
    | BodyNotEmpty(body: string)
    | NotJsonContentType(contentType: string)
    | UndecodableJson(text: string)
    | StringMismatch(expectedString: string, actualString: string)
    | StringNotEmpty(nonEmptyString: string)
    | ObjectMismatch(expectedObject: map<string, Json>, actualObject: map<string, Json>)
    | NotAnObject(actualValue: Json)

  /** The injected sink for failures; here it keeps them in order. */
  class Reporter {
    ghost var reports: seq<Failure>

    constructor ()
      ensures reports == []
    {
      reports := [];
    }

    method Report(failure: Failure)
      modifies this
      ensures reports == old(reports) + [failure]
    {
      reports := reports + [failure];
    }
  }

  /**
   * A chain: the reporter it reports to and whether an assertion on it has
   * failed. A chain that has failed reports nothing more, so each chain
   * reports at most its first failure.
   */
  class Chain {
    const reporter: Reporter
    var failed: bool

    /** `makeChain(reporter)`: a chain that has not failed. */
    constructor (reporter: Reporter)
      ensures this.reporter == reporter && !failed
    {
      this.reporter := reporter;
      failed := false;
    }

    /** A copy of `source`, taken when a wrapper is derived from it. */
    constructor Clone(source: Chain)
      ensures reporter == source.reporter && failed == source.failed
    {
      reporter := source.reporter;
      failed := source.failed;
    }

    /** `fail`: mark the chain failed, reporting the failure unless it had already failed. */
    method Fail(failure: Failure)
      modifies this, reporter
      ensures failed
      ensures reporter.reports == old(reporter.reports) + (if old(failed) then [] else [failure])
    {
      if !failed {
        failed := true;
        reporter.Report(failure);
      }
    }

    /** Fail with `verdict`'s failure when there is one; a passing check changes nothing. */
    method Check(verdict: Option<Failure>)
      modifies this, reporter
      ensures failed == (old(failed) || verdict.Some?)
      ensures reporter.reports == old(reporter.reports) + Reported(old(failed), verdict)
    {
      if verdict.Some? {
        Fail(verdict.value);
      }
    }

    /** `reset`: make the chain OK again (used by tests between assertions). */
    method Reset()
      modifies this
      ensures !failed
    {
      failed := false;
    }
  }

  /** What a check reports: its failure, unless the chain had already failed. */
  function Reported(wasFailed: bool, verdict: Option<Failure>): seq<Failure> {
    if !wasFailed && verdict.Some? then [verdict.value] else []
  }
}
