/** The option normalizer (`options` in plugins/modules/nios_network.py): it
    turns the `options` parameter into the list of dicts sent to WAPI. */
module OptionNormalizer {
  import opened PyValues
  import opened Results

  const MissingIdentifierMessage: string := "one of `name` or `num` is required for option value"

  /** The dict with every `None`-valued entry removed. */
  function DropNulls(m: OptionDict): (r: OptionDict)
    ensures r.Keys <= m.Keys
    ensures forall k :: k in r ==> r[k] == m[k] && r[k] != Null
    ensures forall k :: k in m && m[k] != Null ==> k in r
  {
    map k | k in m && m[k] != Null :: m[k]
  }

  /** WAPI needs at least one of `name` and `num` to identify an option. */
  predicate HasIdentifier(opt: OptionDict) {
    "name" in opt || "num" in opt
  }

  /** A dict with every field set. */
  predicate NoNulls(m: OptionDict) {
    forall k :: k in m ==> m[k] != Null
  }

  /** An entry that normalization rejects. */
  predicate Unidentified(item: OptionDict) {
    !HasIdentifier(DropNulls(item))
  }

  /** The loop of `options`: each entry loses its null fields, in order; the
      first entry left without `name` and `num` fails the module. */
  function NormalizeOptions(items: seq<OptionDict>): (r: Result<seq<OptionDict>>)
    ensures r.Success? <==> forall i :: 0 <= i < |items| ==> !Unidentified(items[i])
    ensures r.Success? ==> |r.value| == |items|
    ensures r.Success? ==> forall i :: 0 <= i < |items| ==> r.value[i] == DropNulls(items[i])
    ensures r.Failure? ==> r.error == Fail(MissingIdentifierMessage)
  {
    if |items| == 0 then Success([])
    else
      var opt := DropNulls(items[0]);
      if !HasIdentifier(opt) then Failure(Fail(MissingIdentifierMessage))
      else
        match NormalizeOptions(items[1..])
        case Failure(e) => Failure(e)
        case Success(rest) => Success([opt] + rest)
  }

  /** `options(module)`: iterates `module.params['options']`. A list of dicts
      is normalized; an empty iterable of any kind gives `[]`; a non-empty
      iterable of non-dicts fails in `iteritems`; `None`, a bool or an int is
      not iterable. */
  function Options(params: map<string, Param>): (r: Result<seq<OptionDict>>)
    requires "options" in params
    ensures params["options"].DictList? ==>
              (r.Success? <==> forall i :: 0 <= i < |params["options"].dicts| ==> !Unidentified(params["options"].dicts[i]))
    ensures params["options"].DictList? && r.Success? ==>
              |r.value| == |params["options"].dicts| &&
              forall i :: 0 <= i < |r.value| ==> r.value[i] == DropNulls(params["options"].dicts[i])
    ensures params["options"].DictList? && r.Failure? ==> r.error == Fail(MissingIdentifierMessage)
    ensures !params["options"].DictList? && r.Success? ==> r.value == []
    ensures !params["options"].DictList? ==>
              (r.Success? <==> params["options"] in {StrList([]), Dict(map[]), Scalar(Str(""))})
    ensures params["options"].Scalar? && !params["options"].v.Str? ==> r == Failure(NotIterable)
    ensures params["options"].StrList? || params["options"].Dict? ||
            (params["options"].Scalar? && params["options"].v.Str?) ==>
              r.Failure? ==> r.error == NotAMapping
  {
    match params["options"]
    case DictList(ds) => NormalizeOptions(ds)
    case StrList(ss) => if |ss| == 0 then Success([]) else Failure(NotAMapping)
    case Dict(m) => if |m| == 0 then Success([]) else Failure(NotAMapping)
    case Scalar(Str(s)) => if |s| == 0 then Success([]) else Failure(NotAMapping)
    case Scalar(_) => Failure(NotIterable)
  }

  /** Entries after the first rejected one are never looked at: whatever
      follows, the outcome is the rejection. */
  lemma {:induction false} NormalizeHaltsAtFirstFailure(prefix: seq<OptionDict>, bad: OptionDict, rest: seq<OptionDict>)
    requires NormalizeOptions(prefix).Success?
    requires Unidentified(bad)
    ensures NormalizeOptions(prefix + [bad] + rest) == Failure(Fail(MissingIdentifierMessage))
  {
    assert (prefix + [bad] + rest)[|prefix|] == bad;
  }

  /** Removing null fields twice is removing them once. */
  lemma DropNullsIdempotent(m: OptionDict)
    ensures DropNulls(DropNulls(m)) == DropNulls(m)
  {
  }

  /** The output of a successful normalization is a fixed point: it contains
      no null field and every entry is identified. */
  lemma NormalizeIdempotent(items: seq<OptionDict>)
    requires NormalizeOptions(items).Success?
    ensures NormalizeOptions(NormalizeOptions(items).value) == NormalizeOptions(items)
  {
    var out := NormalizeOptions(items).value;
    forall i | 0 <= i < |out|
      ensures DropNulls(out[i]) == out[i] && !Unidentified(out[i])
    {
      DropNullsIdempotent(items[i]);
    }
    var again := NormalizeOptions(out);
    assert again.Success?;
    assert again.value == out;
  }

  /** A list whose entries are fully populated comes back unchanged, with the
      same length and every field value kept. */
  lemma {:induction false} NormalizePopulatedIsIdentity(items: seq<OptionDict>)
    requires forall i :: 0 <= i < |items| ==> NoNulls(items[i])
    requires forall i :: 0 <= i < |items| ==> HasIdentifier(items[i])
    ensures NormalizeOptions(items) == Success(items)
  {
    forall i | 0 <= i < |items|
      ensures DropNulls(items[i]) == items[i]
    {
      DropNullsOfPopulated(items[i]);
    }
    var r := NormalizeOptions(items);
    assert r.Success?;
    assert r.value == items;
  }

  /** A dict with every field set is its own null-free form. */
  lemma DropNullsOfPopulated(m: OptionDict)
    requires NoNulls(m)
    ensures DropNulls(m) == m
  {
  }

  /** An entry whose only non-null field is `value` (its `name`, `num` and
      everything else unset) fails the whole list. */
  lemma OnlyValueFails(items: seq<OptionDict>, i: int)
    requires 0 <= i < |items|
    requires forall k :: k in items[i] && k != "value" ==> items[i][k] == Null
    ensures NormalizeOptions(items) == Failure(Fail(MissingIdentifierMessage))
  {
    assert Unidentified(items[i]);
  }

  /** A `name` or `num` key holding `None` does not identify an option: it is
      removed before the test. */
  lemma NullIdentifierIsRemoved(item: OptionDict)
    requires "name" in item ==> item["name"] == Null
    requires "num" in item ==> item["num"] == Null
    ensures NormalizeOptions([item]).Failure?
  {
  }
}
