/** The part of an HTTP request a handler looks at. */
module Http {

  datatype Verb = Get | Post

  /** The submitted form: each field that is present, with its value. */
  type Form = map<string, string>

  datatype Request = Request(verb: Verb, form: Form)

  /** Every key of `keys` is present in the form. */
  predicate HasAll(form: Form, keys: seq<string>)
  {
    forall k :: k in keys ==> k in form
  }

  /** What reading a list of fields yields: their values, or the first key that was absent. */
  datatype Fields = Values(values: seq<string>) | Missing(key: string)

  /**
   * Reads `form[k]` for each key in order. An absent key raises a bad-request
   * error at once, so the result names the first absent key.
   */
  function ReadFields(form: Form, keys: seq<string>): (r: Fields)
    ensures r.Values? <==> HasAll(form, keys)
    ensures r.Values? ==> |r.values| == |keys|
    ensures r.Values? ==> forall i :: 0 <= i < |keys| ==> r.values[i] == form[keys[i]]
    ensures r.Missing? ==> r.key !in form
    ensures r.Missing? ==> exists j :: 0 <= j < |keys| && keys[j] == r.key && HasAll(form, keys[..j])
  {
    if keys == [] then Values([])
    else if keys[0] !in form then
      assert keys[..0] == [];
      Missing(keys[0])
    else
      match ReadFields(form, keys[1..])
      case Values(vs) =>
        assert forall i :: 1 <= i < |keys| ==> keys[i] == keys[1..][i - 1];
        Values([form[keys[0]]] + vs)
      case Missing(k) =>
        var j :| 0 <= j < |keys| - 1 && keys[1..][j] == k && HasAll(form, keys[1..][..j]);
        assert keys[..j + 1] == [keys[0]] + keys[1..][..j];
        Missing(k)
  }
}
