/** JSON values on the wire of the MCP adapter. */
module Wires {
  import opened Utf16

  datatype Wire =
    | Null
    | Bool(b: bool)
    | Int(n: int)            // a safe integer
    | Number(text: Str)      // any other number
    | Text(s: Str)
    | Arr(items: seq<Wire>)
    | Obj(fields: seq<Field>)

  datatype Field = Field(key: string, value: Wire)

  /** Keys whose value is user data and is never looked into. */
  const OPAQUE_KEYS: set<string> := {
    "userOptions", "user_options", "metadata", "notebookMetadata", "notebook_metadata",
    "attachments", "value", "output", "details"
  }

  /** Position of the member with this key, or the number of members. */
  function IndexOf(fields: seq<Field>, key: string): (r: nat)
    ensures r <= |fields| && (r < |fields| ==> fields[r].key == key)
    ensures forall k | 0 <= k < r :: fields[k].key != key
  {
    if fields == [] then 0 else if fields[0].key == key then 0 else 1 + IndexOf(fields[1..], key)
  }

  predicate Has(fields: seq<Field>, key: string) { IndexOf(fields, key) < |fields| }

  /** The member's value; a missing member reads as null here and is told apart by `Has`. */
  function Get(fields: seq<Field>, key: string): Wire {
    if Has(fields, key) then fields[IndexOf(fields, key)].value else Null
  }

  predicate IsText(fields: seq<Field>, key: string) { Get(fields, key).Text? }

  /** Assignment to a member: in place if it exists, at the end otherwise. */
  function Put(fields: seq<Field>, key: string, value: Wire): seq<Field> {
    var i := IndexOf(fields, key);
    if i < |fields| then fields[i := Field(key, value)] else fields + [Field(key, value)]
  }

  function Without(fields: seq<Field>, keys: set<string>): seq<Field> {
    if fields == [] then []
    else if fields[0].key in keys then Without(fields[1..], keys)
    else [fields[0]] + Without(fields[1..], keys)
  }

  lemma ConsGet(f: Field, rest: seq<Field>, key: string)
    ensures Has([f] + rest, key) <==> (f.key == key || Has(rest, key))
    ensures Get([f] + rest, key) == if f.key == key then f.value else Get(rest, key)
  {
  }

  lemma ConsPut(f: Field, rest: seq<Field>, key: string, value: Wire)
    ensures Put([f] + rest, key, value) == if f.key == key then [Field(key, value)] + rest else [f] + Put(rest, key, value)
  {
  }

  /** Assignment changes the one member and no other. */
  lemma {:induction false} PutGet(fields: seq<Field>, key: string, value: Wire, other: string)
    ensures Has(Put(fields, key, value), other) <==> (other == key || Has(fields, other))
    ensures Get(Put(fields, key, value), other) == if other == key then value else Get(fields, other)
  {
    if fields == [] {
      ConsGet(Field(key, value), [], other);
    } else {
      var f, rest := fields[0], fields[1..];
      assert fields == [f] + rest;
      hide Get, Has, Put;
      ConsPut(f, rest, key, value);
      ConsGet(f, rest, other);
      if f.key == key {
        ConsGet(Field(key, value), rest, other);
      } else {
        PutGet(rest, key, value, other);
        ConsGet(f, Put(rest, key, value), other);
      }
    }
  }

  /** Removal keeps the other members. */
  lemma {:induction false} WithoutGet(fields: seq<Field>, keys: set<string>, key: string)
    requires key !in keys
    ensures Has(Without(fields, keys), key) <==> Has(fields, key)
    ensures Get(Without(fields, keys), key) == Get(fields, key)
  {
    if fields != [] {
      assert fields == [fields[0]] + fields[1..];
      WithoutGet(fields[1..], keys, key);
      hide Get, Has;
      ConsGet(fields[0], fields[1..], key);
      if fields[0].key !in keys {
        ConsGet(fields[0], Without(fields[1..], keys), key);
      }
    }
  }

  lemma {:induction false} WithoutNone(fields: seq<Field>, keys: set<string>, key: string)
    requires key in keys
    ensures !Has(Without(fields, keys), key)
  {
    if fields != [] {
      WithoutNone(fields[1..], keys, key);
      hide Has;
      if fields[0].key !in keys {
        ConsGet(fields[0], Without(fields[1..], keys), key);
      } else {
        assert Without(fields, keys) == Without(fields[1..], keys);
      }
    } else {
      assert IndexOf([], key) == 0;
    }
  }
}
