/** The `update-json` build task (tasks/update-json.js): overwrite, in a
    loaded JSON object, the members named in the task's `fields`, but only
    those the object already has. Reading and writing the file are not part
    of this model. */
module UpdateJson {

  /** A JSON value; numbers are kept as integers. */
  datatype Json =
    | Null
    | Bool(b: bool)
    | Number(n: int)
    | String(s: string)
    | Array(items: seq<Json>)
    | Object(members: map<string, Json>)

  /** The object the task writes back: every member keeps its name; those
      named in `fields` take the field's value. */
  function Patched(json: map<string, Json>, fields: map<string, Json>): map<string, Json>
  {
    map k | k in json :: if k in fields then fields[k] else json[k]
  }

  /** The `Object.keys(fields).forEach` loop. `keys` is `Object.keys(fields)`:
      each key of `fields`, in the object's own order. */
  method UpdateFields(json0: map<string, Json>, fields: map<string, Json>, keys: seq<string>)
    returns (json: map<string, Json>)
    requires forall k :: k in keys <==> k in fields
    ensures json == Patched(json0, fields)
  {
    json := json0;
    var i := 0;
    while i < |keys|
      invariant 0 <= i <= |keys|
      invariant json.Keys == json0.Keys
      invariant forall k :: k in json ==> json[k] == if k in keys[..i] then fields[k] else json0[k]
    {
      var key := keys[i];
      var value := fields[key];
      if key in json {
        json := json[key := value];
      }
      i := i + 1;
    }
    assert keys[..i] == keys;
  }

  /** The update adds no member and removes none: a field the object lacks
      is ignored. */
  lemma PatchedKeepsKeys(json: map<string, Json>, fields: map<string, Json>)
    ensures Patched(json, fields).Keys == json.Keys
    ensures forall k :: k in fields && k !in json ==> k !in Patched(json, fields)
  {
  }

  /** Members named in `fields` take the field's value; the others keep
      their own. */
  lemma PatchedValues(json: map<string, Json>, fields: map<string, Json>, k: string)
    requires k in json
    ensures k in fields ==> Patched(json, fields)[k] == fields[k]
    ensures k !in fields ==> Patched(json, fields)[k] == json[k]
  {
  }

  /** Running the task twice with the same fields writes the same object as
      running it once. */
  lemma PatchedIdempotent(json: map<string, Json>, fields: map<string, Json>)
    ensures Patched(Patched(json, fields), fields) == Patched(json, fields)
  {
    var once := Patched(json, fields);
    assert forall k :: k in once ==> Patched(once, fields)[k] == once[k];
  }

  /** Patching with fields that only name members the object lacks leaves it
      as it was. */
  lemma PatchedUnrelatedFields(json: map<string, Json>, fields: map<string, Json>)
    requires forall k :: k in fields ==> k !in json
    ensures Patched(json, fields) == json
  {
  }
}
