/** What the GitLab and Supybot enrichers share: the identity descriptor
    they hand to identity resolution, and the loop that copies a list of
    fields into the rich item, with None for every field the input lacks. */
module Enrich {
  import opened Py

  /** The identity dict `{username, email, name}` passed to SortingHat. */
  datatype Identity = Identity(username: Value, email: Value, name: Value)

  /** `for f in fields: rich[f] = source[f] if f in source else None`,
      starting from `rich`, as a function of the fields still to copy. */
  function CopyFields(source: Value, fields: seq<string>, rich: Fields): (r: Result<Fields>)
    decreases |fields|
  {
    if fields == [] then Ok(rich)
    else
      var present :- Contains(source, fields[0]);
      var v :- if present then Get(source, fields[0]) else Ok(PyNone);
      CopyFields(source, fields[1..], rich[fields[0] := v])
  }

  /** Copying from a dict never fails; every listed field becomes a key,
      holding the source's value when the source has that key and None
      otherwise, and every other key of `rich` is kept. */
  lemma {:induction false} CopyFieldsFromDict(source: Value, fields: seq<string>, rich: Fields)
    requires source.PyDict?
    ensures var r := CopyFields(source, fields, rich);
            && r.Ok?
            && (forall f :: f in fields ==>
                  f in r.value && r.value[f] == if f in source.fields then source.fields[f] else PyNone)
            && (forall k :: k in rich && k !in fields ==> k in r.value && r.value[k] == rich[k])
            && r.value.Keys == rich.Keys + set f | f in fields
  {
    if fields != [] {
      var f0 := fields[0];
      var v := if f0 in source.fields then source.fields[f0] else PyNone;
      CopyFieldsFromDict(source, fields[1..], rich[f0 := v]);
      assert forall f :: f in fields ==> f == f0 || f in fields[1..];
      assert (set f | f in fields) == {f0} + set f | f in fields[1..];
    }
  }

  /** Copying from anything but a dict, a list or a string raises TypeError
      at the first field; with no fields nothing is looked at. */
  lemma CopyFieldsFromScalar(source: Value, fields: seq<string>, rich: Fields)
    requires !(source.PyDict? || source.PyList? || source.PyStr?)
    ensures CopyFields(source, fields, rich) == if fields == [] then Ok(rich) else Err(TypeError)
  {
  }

  /** The copy loop as the enrichers run it. */
  method CopyFieldsLoop(source: Value, fields: seq<string>, rich: Fields) returns (r: Result<Fields>)
    ensures r == CopyFields(source, fields, rich)
  {
    var acc := rich;
    var i := 0;
    while i < |fields|
      invariant 0 <= i <= |fields|
      invariant CopyFields(source, fields, rich) == CopyFields(source, fields[i..], acc)
    {
      var f := fields[i];
      assert fields[i..][1..] == fields[i + 1..];
      var present :- Contains(source, f);
      if present {
        var v :- Get(source, f);
        acc := acc[f := v];
      } else {
        acc := acc[f := PyNone];
      }
      i := i + 1;
    }
    r := Ok(acc);
  }
}
