/**
 * The value wrappers a response hands out: a string (a header value or the
 * body) and an object (the header map or a decoded JSON object), and the
 * generic JSON value that narrows to an object. Each holds its own copy of the
 * chain it was derived from, so a failure recorded before derivation is
 * inherited and a failure on the wrapper does not reach back to the response.
 */
module Values {
  import opened Wrappers
  import opened JsonTree
  import opened Chains

  /** A string under assertion. */
  class String {
    const chain: Chain
    const value: string

    constructor (parent: Chain, value: string)
      ensures fresh(chain) && chain.reporter == parent.reporter && chain.failed == parent.failed
      ensures this.value == value
    {
      chain := new Chain.Clone(parent);
      this.value := value;
    }

    function Raw(): (r: string)
      ensures r == value
    {
      value
    }

    /** Passes exactly when the string is `expected`. */
    method Equal(expected: string)
      modifies chain, chain.reporter
      ensures chain.failed == (old(chain.failed) || value != expected)
      ensures chain.reporter.reports ==
        old(chain.reporter.reports) + Reported(old(chain.failed), StringEqualVerdict(expected, value))
    {
      chain.Check(StringEqualVerdict(expected, value));
    }

    /** Passes exactly when the string is empty. */
    method Empty()
      modifies chain, chain.reporter
      ensures chain.failed == (old(chain.failed) || value != "")
      ensures chain.reporter.reports ==
        old(chain.reporter.reports) + Reported(old(chain.failed), StringEmptyVerdict(value))
    {
      chain.Check(StringEmptyVerdict(value));
    }
  }

  function StringEqualVerdict(expected: string, actual: string): (v: Option<Failure>)
    ensures v.None? <==> expected == actual
  {
    if expected == actual then None else Some(StringMismatch(expected, actual))
  }

  function StringEmptyVerdict(actual: string): (v: Option<Failure>)
    ensures v.None? <==> actual == ""
  {
    if actual == "" then None else Some(StringNotEmpty(actual))
  }

  /** A JSON object (a string-keyed map) under assertion. */
  class Object {
    const chain: Chain
    const value: map<string, Json>

    constructor (parent: Chain, value: map<string, Json>)
      ensures fresh(chain) && chain.reporter == parent.reporter && chain.failed == parent.failed
      ensures this.value == value
    {
      chain := new Chain.Clone(parent);
      this.value := value;
    }

    function Raw(): (r: map<string, Json>)
      ensures r == value
    {
      value
    }

    /** Passes exactly when the object has the same members with the same values. */
    method Equal(expected: map<string, Json>)
      modifies chain, chain.reporter
      ensures chain.failed == (old(chain.failed) || value != expected)
      ensures chain.reporter.reports ==
        old(chain.reporter.reports) + Reported(old(chain.failed), ObjectEqualVerdict(expected, value))
    {
      chain.Check(ObjectEqualVerdict(expected, value));
    }
  }

  function ObjectEqualVerdict(expected: map<string, Json>, actual: map<string, Json>): (v: Option<Failure>)
    ensures v.None? <==> expected == actual
  {
    if expected == actual then None else Some(ObjectMismatch(expected, actual))
  }

  /** A decoded JSON value of any shape; `Absent` when nothing could be decoded. */
  class Value {
    const chain: Chain
    const value: Json

    constructor (parent: Chain, value: Json)
      ensures fresh(chain) && chain.reporter == parent.reporter && chain.failed == parent.failed
      ensures this.value == value
    {
      chain := new Chain.Clone(parent);
      this.value := value;
    }

    function Raw(): (r: Json)
      ensures r == value
    {
      value
    }

    /**
     * Narrow to an object. A value of another shape fails the chain (it does
     * not crash) and yields an empty object whose chain has failed too.
     */
    method Object() returns (o: Object)
      modifies chain, chain.reporter
      ensures chain.failed == (old(chain.failed) || !value.Obj?)
      ensures chain.reporter.reports ==
        old(chain.reporter.reports) + Reported(old(chain.failed), ObjectVerdict(value))
      ensures fresh(o) && fresh(o.chain) && o.chain.reporter == chain.reporter && o.chain.failed == chain.failed
      ensures o.value == if value.Obj? then value.fields else map[]
    {
      chain.Check(ObjectVerdict(value));
      o := new Object(chain, if value.Obj? then value.fields else map[]);
    }
  }

  function ObjectVerdict(actual: Json): (v: Option<Failure>)
    ensures v.None? <==> actual.Obj?
  {
    if actual.Obj? then None else Some(NotAnObject(actual))
  }
}
