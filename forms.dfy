/**
 * What the forms of the portal hand to the network: files picked by the user,
 * `FormData` entries in the order they were appended, and the built-in
 * Angular validators reduced to the predicates they compute on one value.
 */
module Forms {
  import opened Common

  /** A browser `File`: name, size in bytes and MIME type. */
  datatype File = File(name: string, size: nat, mimeType: string)

  datatype FormValue = TextValue(text: string) | FileValue(file: File)

  /** One `formData.append(name, value)` call. */
  datatype FormField = FormField(name: string, value: FormValue)

  /** The field names of a `FormData`, in the order they were appended. */
  function Names(fields: seq<FormField>): (r: seq<string>)
    ensures |r| == |fields|
    ensures forall i :: 0 <= i < |fields| ==> r[i] == fields[i].name
  {
    if fields == [] then [] else [fields[0].name] + Names(fields[1..])
  }

  /** `formData.get(name)`: the value of the first field with that name. */
  function Get(fields: seq<FormField>, name: string): Option<FormValue>
  {
    if fields == [] then None
    else if fields[0].name == name then Some(fields[0].value)
    else Get(fields[1..], name)
  }

  /** Get finds nothing exactly when no field has the name, and otherwise the first such field. */
  lemma {:induction false} GetMeans(fields: seq<FormField>, name: string)
    ensures Get(fields, name).None? <==> forall i :: 0 <= i < |fields| ==> fields[i].name != name
    ensures Get(fields, name).Some? ==>
      exists i :: 0 <= i < |fields| && fields[i] == FormField(name, Get(fields, name).value) &&
                  forall j :: 0 <= j < i ==> fields[j].name != name
  {
    if fields != [] && fields[0].name != name {
      var rest := fields[1..];
      GetMeans(rest, name);
      assert forall i :: 1 <= i < |fields| ==> fields[i] == rest[i - 1];
      if Get(rest, name).Some? {
        var k :| 0 <= k < |rest| && rest[k] == FormField(name, Get(rest, name).value) &&
                 forall j :: 0 <= j < k ==> rest[j].name != name;
        assert fields[k + 1] == rest[k];
      }
    }
  }

  /** Get on a single field. */
  lemma GetSingle(x: FormField, name: string)
    ensures Get([x], name) == if x.name == name then Some(x.value) else None
  {
    assert [x][1..] == [];
  }

  /** Looking a name up in two appended batches of fields. */
  lemma {:induction false} GetConcat(a: seq<FormField>, b: seq<FormField>, name: string)
    ensures Get(a + b, name) == if Get(a, name).Some? then Get(a, name) else Get(b, name)
  {
    if a == [] {
      assert a + b == b;
    } else {
      assert (a + b)[0] == a[0];
      assert (a + b)[1..] == a[1..] + b;
      GetConcat(a[1..], b, name);
    }
  }

  /** `Validators.required` on a text control: the empty string fails. */
  predicate Required(s: string) { s != "" }

  /** `Validators.minLength(n)`: an empty value passes (required decides it). */
  predicate MinLength(s: string, n: nat) { s == "" || |s| >= n }

  /** `Validators.maxLength(n)` */
  predicate MaxLength(s: string, n: nat) { |s| <= n }

  /** `Validators.required` on a number control: only an empty input (null) fails; 0 passes. */
  predicate RequiredNumber(v: Option<int>) { v.Some? }

  /** `Validators.min(m)`: an empty input passes. */
  predicate MinNumber(v: Option<int>, m: int) { v.None? || v.value >= m }

  /** `Validators.max(m)`: an empty input passes. */
  predicate MaxNumber(v: Option<int>, m: int) { v.None? || v.value <= m }
}
