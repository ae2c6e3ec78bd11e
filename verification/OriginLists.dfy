/** The list of origins an endpoint allows: normalised, stored as text, loaded and consulted. */
module OriginLists {
  import opened Common
  import opened HostNames
  import opened Origins
  import opened OriginSpelling

  // A function from the text of a value to its normal form; the program's is
  // OriginNormalizer. The list operations need nothing else of it.
  type Normalizer = string -> Result<string, OriginError>

  function OriginNormalizer(ip6: AddressParser): Normalizer {
    value => NormalizeOrigin(ip6, value)
  }

  // The list of normalised origins without repetitions, in order of first
  // appearance; the error of the first value that is not an origin.
  function Normalized(norm: Normalizer, values: seq<string>): Result<seq<string>, OriginError> {
    if values == [] then Ok([])
    else
      match Normalized(norm, values[..|values| - 1])
      case Err(e) => Err(e)
      case Ok(earlier) =>
        match norm(values[|values| - 1])
        case Err(e) => Err(e)
        case Ok(origin) => Ok(if origin in earlier then earlier else earlier + [origin])
  }

  lemma {:induction false} FirstErrorWins(norm: Normalizer, values: seq<string>, i: nat)
    requires i < |values| && Normalized(norm, values[..i]).Ok? && norm(values[i]).Err?
    ensures Normalized(norm, values) == Err(norm(values[i]).error)
    decreases |values|
  {
    var before := values[..|values| - 1];
    if i < |before| {
      assert before[..i] == values[..i];
      FirstErrorWins(norm, before, i);
    }
  }

  method NormalizeOrigins(norm: Normalizer, values: seq<string>) returns (result: Result<seq<string>, OriginError>)
    ensures result == Normalized(norm, values)
  {
    var list: seq<string> := [];
    var seen: set<string> := {};
    for i := 0 to |values|
      invariant Normalized(norm, values[..i]) == Ok(list)
      invariant forall o :: o in seen <==> o in list
    {
      assert values[..i + 1][..i] == values[..i];
      var normalized := norm(values[i]);
      match normalized {
        case Err(e) =>
          FirstErrorWins(norm, values, i);
          return Err(e);
        case Ok(origin) =>
          if origin !in seen {
            seen := seen + {origin};
            list := list + [origin];
          }
      }
    }
    assert values[..|values|] == values;
    return Ok(list);
  }

  predicate Distinct(list: seq<string>) {
    forall i, j :: 0 <= i < j < |list| ==> list[i] != list[j]
  }

  ghost predicate AllOrigins(norm: Normalizer, values: seq<string>) {
    forall i :: 0 <= i < |values| ==> norm(values[i]).Ok?
  }

  // Some value of the list normalises to this text.
  ghost predicate Names(norm: Normalizer, values: seq<string>, origin: string) {
    exists i :: 0 <= i < |values| && norm(values[i]) == Ok(origin)
  }

  lemma NamesSplit(norm: Normalizer, values: seq<string>, o: string)
    requires values != []
    ensures Names(norm, values, o) <==>
            Names(norm, values[..|values| - 1], o) || norm(values[|values| - 1]) == Ok(o)
  {
    var before := values[..|values| - 1];
    if Names(norm, before, o) {
      var i :| 0 <= i < |before| && norm(before[i]) == Ok(o);
      assert values[i] == before[i];
    }
    if Names(norm, values, o) {
      var i :| 0 <= i < |values| && norm(values[i]) == Ok(o);
      assert i < |before| ==> before[i] == values[i];
    }
  }

  // A list is accepted exactly when each of its values is; the result has no
  // repetitions and holds exactly the normal forms of the values.
  lemma {:induction false} NormalizedList(norm: Normalizer, values: seq<string>)
    ensures Normalized(norm, values).Ok? <==> AllOrigins(norm, values)
    ensures Normalized(norm, values).Ok? ==> Distinct(Normalized(norm, values).value)
    ensures Normalized(norm, values).Ok? ==> forall o :: o in Normalized(norm, values).value <==> Names(norm, values, o)
    decreases |values|
  {
    if values != [] {
      var before, last := values[..|values| - 1], values[|values| - 1];
      NormalizedList(norm, before);
      assert forall i :: 0 <= i < |before| ==> before[i] == values[i];
      if Normalized(norm, values).Ok? {
        forall o
          ensures o in Normalized(norm, values).value <==> Names(norm, values, o)
        {
          NamesSplit(norm, values, o);
        }
      }
    }
  }

  // The position of the first value with this normal form, or the length of the list.
  function FirstAt(norm: Normalizer, values: seq<string>, o: string): (f: nat)
    ensures f <= |values|
    ensures f < |values| ==> norm(values[f]) == Ok(o)
    ensures forall k :: 0 <= k < f ==> norm(values[k]) != Ok(o)
  {
    if values == [] then 0
    else
      var f := FirstAt(norm, values[..|values| - 1], o);
      if f < |values| - 1 || norm(values[|values| - 1]) == Ok(o) then f else |values|
  }

  // The normal forms stand in the order in which they first appear among the values.
  lemma {:induction false} FirstAppearanceOrder(norm: Normalizer, values: seq<string>)
    requires Normalized(norm, values).Ok?
    ensures var list := Normalized(norm, values).value;
            && (forall i :: 0 <= i < |list| ==> FirstAt(norm, values, list[i]) < |values|)
            && (forall i, j :: 0 <= i < j < |list| ==> FirstAt(norm, values, list[i]) < FirstAt(norm, values, list[j]))
    decreases |values|
  {
    if values != [] {
      FirstAppearanceOrder(norm, values[..|values| - 1]);
      NormalizedList(norm, values[..|values| - 1]);
    }
  }

  // A list of distinct normal forms is left as it is.
  lemma {:induction false} NormalFormsKept(norm: Normalizer, list: seq<string>)
    requires Distinct(list) && forall i :: 0 <= i < |list| ==> norm(list[i]) == Ok(list[i])
    ensures Normalized(norm, list) == Ok(list)
    decreases |list|
  {
    if list != [] {
      var before := list[..|list| - 1];
      NormalFormsKept(norm, before);
      assert list == before + [list[|list| - 1]];
    }
  }

  // Every normal form is its own normal form.
  ghost predicate Idempotent(norm: Normalizer) {
    forall value :: norm(value).Ok? ==> norm(norm(value).value) == norm(value)
  }

  lemma OriginsIdempotent(ip6: AddressParser)
    requires CanonicalParser(ip6)
    ensures Idempotent(OriginNormalizer(ip6))
  {
    var norm := OriginNormalizer(ip6);
    forall value | norm(value).Ok?
      ensures norm(norm(value).value) == norm(value)
    {
      NormalizeOriginIdempotent(ip6, value);
    }
  }

  lemma NormalizedTwice(norm: Normalizer, values: seq<string>)
    requires Idempotent(norm) && Normalized(norm, values).Ok?
    ensures Normalized(norm, Normalized(norm, values).value) == Normalized(norm, values)
  {
    var list := Normalized(norm, values).value;
    NormalizedList(norm, values);
    forall i | 0 <= i < |list|
      ensures norm(list[i]) == Ok(list[i])
    {
      assert list[i] in list && Names(norm, values, list[i]);
      var k :| 0 <= k < |values| && norm(values[k]) == Ok(list[i]);
      assert norm(values[k]).Ok?;
    }
    NormalFormsKept(norm, list);
  }

  // ---- storage ----

  // The JSON text of a list, and the items of a JSON text as texts: None when it
  // is malformed or not a list.
  datatype ListCodec = ListCodec(dumps: seq<string> -> string, loads: string -> Option<seq<string>>)

  ghost predicate ReadsBack(json: ListCodec, items: seq<string>) {
    json.dumps(items) != "" && json.loads(json.dumps(items)) == Some(items)
  }

  ghost predicate InversePair(json: ListCodec) {
    forall items :: ReadsBack(json, items)
  }

  function ToStorage(norm: Normalizer, json: ListCodec, origins: seq<string>): Result<Option<string>, OriginError> {
    match Normalized(norm, origins)
    case Err(e) => Err(e)
    case Ok(list) => Ok(if list == [] then None else Some(json.dumps(list)))
  }

  function FromStorage(norm: Normalizer, json: ListCodec, value: Option<string>): seq<string> {
    if value.None? || value.value == "" then []
    else
      match json.loads(value.value)
      case None => []
      case Some(items) =>
        match Normalized(norm, items)
        case Err(_) => []
        case Ok(list) => list
  }

  function OriginIsAllowed(norm: Normalizer, header: Option<string>, allowed: seq<string>): bool {
    if allowed == [] then true
    else if header.None? || header.value == "" then false
    else
      match norm(header.value)
      case Err(_) => false
      case Ok(origin) => origin in allowed
  }

  // What is stored is the JSON text of the normalised list, and nothing for an empty one.
  lemma StoredExactly(norm: Normalizer, json: ListCodec, origins: seq<string>)
    ensures ToStorage(norm, json, origins).Ok? <==> AllOrigins(norm, origins)
    ensures AllOrigins(norm, origins) ==>
              var list := Normalized(norm, origins);
              list.Ok? && ToStorage(norm, json, origins).value == if origins == [] then None
                  else Some(json.dumps(list.value))
  {
    NormalizedList(norm, origins);
    if origins != [] && AllOrigins(norm, origins) {
      assert Names(norm, origins, norm(origins[0]).value);
    }
  }

  // What is loaded is the normalised list of the items, and nothing when the column is
  // empty, malformed, or holds an item that is not an origin.
  lemma LoadedExactly(norm: Normalizer, json: ListCodec, value: Option<string>)
    ensures var items := if value.None? || value.value == "" then None else json.loads(value.value);
            var loaded := FromStorage(norm, json, value);
            if items.Some? && AllOrigins(norm, items.value)
            then Ok(loaded) == Normalized(norm, items.value) else loaded == []
  {
    if value.Some? && value.value != "" && json.loads(value.value).Some? {
      NormalizedList(norm, json.loads(value.value).value);
    }
  }

  // Storing fails exactly when a value is not an origin; otherwise loading gives
  // back the normalised list.
  lemma StorageRoundTrip(norm: Normalizer, json: ListCodec, origins: seq<string>)
    requires Idempotent(norm) && InversePair(json)
    ensures ToStorage(norm, json, origins).Ok? <==> AllOrigins(norm, origins)
    ensures ToStorage(norm, json, origins).Ok? ==>
              Ok(FromStorage(norm, json, ToStorage(norm, json, origins).value)) == Normalized(norm, origins)
  {
    NormalizedList(norm, origins);
    if Normalized(norm, origins).Ok? {
      NormalizedTwice(norm, origins);
      assert ReadsBack(json, Normalized(norm, origins).value);
    }
  }

  // Loading and storing what was loaded changes nothing, whatever was in the column.
  lemma StoredAgain(norm: Normalizer, json: ListCodec, value: Option<string>)
    requires Idempotent(norm) && InversePair(json)
    ensures var loaded := FromStorage(norm, json, value);
            && ToStorage(norm, json, loaded).Ok?
            && FromStorage(norm, json, ToStorage(norm, json, loaded).value) == loaded
  {
    var loaded := FromStorage(norm, json, value);
    if loaded != [] {
      NormalizedTwice(norm, json.loads(value.value).value);
    }
    NormalizedList(norm, loaded);
    StorageRoundTrip(norm, json, loaded);
  }

  ghost predicate SameOriginAsSome(ip6: AddressParser, values: seq<string>, header: string) {
    exists i :: 0 <= i < |values| && ParseOrigin(ip6, values[i]) == ParseOrigin(ip6, header)
  }

  // The reloaded list lets a header pass exactly when some stored value has its normal form.
  lemma AllowedByNormalForm(norm: Normalizer, json: ListCodec, origins: seq<string>, header: Option<string>)
    requires Idempotent(norm) && InversePair(json) && AllOrigins(norm, origins)
    requires norm("").Err?
    ensures ToStorage(norm, json, origins).Ok?
    ensures OriginIsAllowed(norm, header, FromStorage(norm, json, ToStorage(norm, json, origins).value)) <==>
            origins == [] || (header.Some? && norm(header.value).Ok? && Names(norm, origins, norm(header.value).value))
  {
    StorageRoundTrip(norm, json, origins);
    NormalizedList(norm, origins);
    if origins != [] {
      assert Names(norm, origins, norm(origins[0]).value);
    }
  }

  lemma HeaderNamed(ip6: AddressParser, origins: seq<string>, header: string)
    requires CanonicalParser(ip6) && AllOrigins(OriginNormalizer(ip6), origins) && ParseOrigin(ip6, header).Ok?
    ensures Names(OriginNormalizer(ip6), origins, NormalizeOrigin(ip6, header).value) <==>
              SameOriginAsSome(ip6, origins, header)
  {
    var norm := OriginNormalizer(ip6);
    forall i | 0 <= i < |origins|
      ensures norm(origins[i]) == NormalizeOrigin(ip6, header) <==>
              ParseOrigin(ip6, origins[i]) == ParseOrigin(ip6, header)
    {
      assert norm(origins[i]).Ok?;
      SameTextSameOrigin(ip6, origins[i], header);
    }
  }

  // With a non-empty list stored, a request passes exactly when its header names
  // the same scheme, host and port as a value of the list; with an empty list
  // every request passes.
  lemma AllowedExactly(ip6: AddressParser, json: ListCodec, origins: seq<string>, header: Option<string>)
    requires CanonicalParser(ip6) && InversePair(json) && AllOrigins(OriginNormalizer(ip6), origins)
    ensures var norm := OriginNormalizer(ip6);
            && ToStorage(norm, json, origins).Ok?
            && (OriginIsAllowed(norm, header, FromStorage(norm, json, ToStorage(norm, json, origins).value)) <==>
                origins == [] || (header.Some? && ParseOrigin(ip6, header.value).Ok?
                    && SameOriginAsSome(ip6, origins, header.value)))
  {
    OriginsIdempotent(ip6);
    AllowedByNormalForm(OriginNormalizer(ip6), json, origins, header);
    if header.Some? && ParseOrigin(ip6, header.value).Ok? {
      HeaderNamed(ip6, origins, header.value);
    }
  }
}
