/**
 * The three state hooks of the console: `useApiCall` (one API call with its
 * loading flag, last error and last result), `useForm` (form values and the
 * set of touched fields) and `useFetch` (a fetched collection).
 */
module UseApi {
  import opened Json
  import opened Api
  import opened Events

  /** What `execute` returns to its caller. */
  datatype ExecResult = Succeeded(data: Value) | Failed(error: Value)

  datatype CallState = CallState(loading: bool, error: Value, data: Value)

  /** The message `execute` reports for a failed call. */
  function CallErrorText(f: Failure): (m: Value)
    ensures Truthy(m)
    ensures Truthy(f.responseMessage) ==> m == f.responseMessage
    ensures !Truthy(f.responseMessage) && Truthy(f.message) ==> m == f.message
    ensures !Truthy(f.responseMessage) && !Truthy(f.message) ==> m == Str("Something went wrong")
  {
    ErrorText(f, "Something went wrong")
  }

  /** The state behind one `useApiCall` hook. */
  class ApiCall {
    var loading: bool
    var error: Value
    var data: Value

    function State(): CallState
      reads this
    {
      CallState(loading, error, data)
    }

    constructor ()
      ensures State() == CallState(false, Null, Null)
    {
      loading, error, data := false, Null, Null;
    }

    /**
     * `execute`: clears the error, runs the call and ends with `loading`
     * false; a success stores and returns the result, a failure stores and
     * returns its message and keeps the previous result.
     */
    method Execute(outcome: Outcome) returns (r: ExecResult)
      modifies this
      ensures !loading
      ensures outcome.Ok? ==> r == Succeeded(outcome.data) && error == Null && data == outcome.data
      ensures outcome.Err? ==> r == Failed(CallErrorText(outcome.failure)) && error == r.error && data == old(data)
    {
      loading := true;
      error := Null;
      match outcome {
        case Ok(result) =>
          data := result;
          r := Succeeded(result);
        case Err(f) =>
          var message := CallErrorText(f);
          error := message;
          r := Failed(message);
      }
      loading := false;
    }
  }

  /** The value a change event writes: `checked` for a checkbox, the first file for a file input, else `value`. */
  function InputValue(ev: ChangeEvent): (v: Value)
    ensures ev.inputType == "checkbox" ==> v == Bool(ev.checked)
    ensures ev.inputType == "file" ==> (v == Undefined <==> ev.files == []) && (v.File? ==> v.file == ev.files[0])
    ensures ev.inputType != "checkbox" && ev.inputType != "file" ==> v == ev.value
  {
    if ev.inputType == "checkbox" then Bool(ev.checked)
    else if ev.inputType == "file" then (if ev.files == [] then Undefined else File(ev.files[0]))
    else ev.value
  }

  /** The state behind one `useForm` hook; `touched` maps a field name to `true`. */
  class Form {
    const initialValues: seq<Entry>
    var values: seq<Entry>
    var touched: seq<Entry>

    constructor (initialValues: seq<Entry>)
      ensures this.initialValues == initialValues
      ensures values == initialValues && touched == []
    {
      this.initialValues := initialValues;
      values := initialValues;
      touched := [];
    }

    /** `handleChange`: writes the event's value under its name and marks the name touched. */
    method HandleChange(ev: ChangeEvent)
      modifies this
      ensures values == Put(old(values), ev.name, InputValue(ev))
      ensures touched == Put(old(touched), ev.name, Bool(true))
      ensures forall k :: k != ev.name ==> Lookup(values, k) == Lookup(old(values), k)
      ensures Lookup(values, ev.name) == InputValue(ev) && Lookup(touched, ev.name) == Bool(true)
    {
      PutLookupAll(values, ev.name, InputValue(ev));
      PutLookup(touched, ev.name, Bool(true), ev.name);
      values := Put(values, ev.name, InputValue(ev));
      touched := Put(touched, ev.name, Bool(true));
    }

    /** `reset`: back to the initial values with nothing touched. */
    method Reset()
      modifies this
      ensures values == initialValues && touched == []
    {
      values := initialValues;
      touched := [];
    }

    /** `setValue(name, value)`: only `name` changes. */
    method SetValue(name: string, value: Value)
      modifies this
      ensures values == Put(old(values), name, value) && touched == old(touched)
      ensures forall k :: k != name ==> Lookup(values, k) == Lookup(old(values), k)
      ensures Lookup(values, name) == value
    {
      PutLookupAll(values, name, value);
      values := Put(values, name, value);
    }

    /** `setValues(next)`: the raw setter the pages use for functional updates. */
    method SetValues(next: seq<Entry>)
      modifies this
      ensures values == next && touched == old(touched)
    {
      values := next;
    }
  }

  /** `PutLookup` for every key at once. */
  lemma PutLookupAll(es: seq<Entry>, k: string, v: Value)
    ensures Lookup(Put(es, k, v), k) == v
    ensures forall k' :: k' != k ==> Lookup(Put(es, k, v), k') == Lookup(es, k')
  {
    PutLookup(es, k, v, k);
    forall k' | k' != k ensures Lookup(Put(es, k, v), k') == Lookup(es, k') {
      PutLookup(es, k, v, k');
    }
  }

  /** What `useFetch` stores from a result: `result?.data || result || []`; it is never falsy. */
  function FetchedData(result: Value): (d: Value)
    ensures Truthy(d)
    ensures Truthy(Get(result, "data")) ==> d == Get(result, "data")
    ensures !Truthy(Get(result, "data")) && Truthy(result) ==> d == result
    ensures !Truthy(Get(result, "data")) && !Truthy(result) ==> d == Arr([])
  {
    Or(Get(result, "data"), Or(result, Arr([])))
  }

  datatype FetchState = FetchState(data: Value, loading: bool, error: Value)

  /** The state behind one `useFetch` hook. */
  class Fetcher {
    var data: Value
    var loading: bool
    var error: Value

    function State(): FetchState
      reads this
    {
      FetchState(data, loading, error)
    }

    constructor ()
      ensures State() == FetchState(Arr([]), false, Null)
    {
      data, loading, error := Arr([]), false, Null;
    }

    /** `refetch`: a success replaces the data, a failure records its message and keeps the data. */
    method Fetch(outcome: Outcome)
      modifies this
      ensures !loading
      ensures outcome.Ok? ==> data == FetchedData(outcome.data) && error == Null
      ensures outcome.Err? ==> data == old(data) && error == ErrorText(outcome.failure, "Failed to load data")
    {
      loading := true;
      error := Null;
      match outcome {
        case Ok(result) => data := FetchedData(result);
        case Err(f) => error := ErrorText(f, "Failed to load data");
      }
      loading := false;
    }
  }
}
