/**
 * The assets of a release and the deferred producer that parses them: the
 * raw asset items are kept as they came, and each is parsed only when the
 * collection is iterated, in order, stopping at the first item the parser
 * rejects.
 */
module Assets {
  import opened Wrappers
  import opened RawData

  /** One downloadable file of a release. */
  datatype Asset = Asset(name: string, downloadUrl: string)

  /** The parser of one raw asset item, which may reject it with a reason. */
  type AssetParser = Value -> Result<Asset, string>

  /**
   * The assets handed to a release: already known, or raw items together with
   * the parser that turns each into an asset once the collection is iterated.
   */
  datatype AssetsCollection =
    | Eager(known: seq<Asset>)
    | Deferred(parse: AssetParser, raw: seq<Value>)

  /** The parser rejected the raw item at `position` with `reason`. */
  datatype Failure = Failure(position: nat, reason: string)

  /**
   * What a consumer of the collection observes: the assets yielded in order,
   * then either the end of the collection or the failure that interrupts it.
   */
  datatype Iteration = Iteration(yielded: seq<Asset>, failure: Option<Failure>)

  /** Every raw item is accepted by the parser. */
  predicate AllParse(parse: AssetParser, items: seq<Value>)
  {
    forall i :: 0 <= i < |items| ==> parse(items[i]).Ok?
  }

  /** The reference map: every item parsed, in order (meaningful when all parse). */
  function ParsedEach(parse: AssetParser, items: seq<Value>): seq<Asset>
    requires AllParse(parse, items)
  {
    seq(|items|, i requires 0 <= i < |items| && AllParse(parse, items) => parse(items[i]).value)
  }

  /**
   * Iterating the deferred producer over `items`: each item is parsed in turn
   * and yielded; the first rejection ends the iteration with a failure at
   * that item's position.
   */
  function Instantiated(parse: AssetParser, items: seq<Value>): (it: Iteration)
    decreases |items|
    ensures |it.yielded| <= |items|
    ensures forall k :: 0 <= k < |it.yielded| ==> parse(items[k]) == Ok(it.yielded[k])
    ensures it.failure.None? <==> AllParse(parse, items)
    ensures it.failure.None? ==> |it.yielded| == |items|
    ensures it.failure.Some? ==>
      it.failure.value.position == |it.yielded| < |items| &&
      parse(items[|it.yielded|]) == Err(it.failure.value.reason)
  {
    if items == [] then Iteration([], None)
    else
      var prev := Instantiated(parse, items[..|items| - 1]);
      if prev.failure.Some? then prev
      else match parse(items[|items| - 1])
        case Ok(a) => Iteration(prev.yielded + [a], None)
        case Err(reason) => Iteration(prev.yielded, Some(Failure(|items| - 1, reason)))
  }

  /** What iterating a collection observes: the known assets, or the producer's output. */
  function Iterated(assets: AssetsCollection): Iteration
  {
    match assets
    case Eager(known) => Iteration(known, None)
    case Deferred(parse, raw) => Instantiated(parse, raw)
  }

  /**
   * The failure of a prefix is the failure of the whole: the first rejected
   * item of the prefix is the first rejected item of all the items.
   */
  lemma FailuresAgree(parse: AssetParser, items: seq<Value>, k: nat)
    requires k <= |items|
    requires Instantiated(parse, items[..k]).failure.Some?
    ensures Instantiated(parse, items).failure == Instantiated(parse, items[..k]).failure
    ensures |Instantiated(parse, items).yielded| == |Instantiated(parse, items[..k]).yielded|
  {
    var short, long := Instantiated(parse, items[..k]), Instantiated(parse, items);
    var p := short.failure.value.position;
    assert items[..k][p] == items[p];
    assert !AllParse(parse, items);
    var q := long.failure.value.position;
    assert q <= p;
    assert q < k;
    assert items[..k][q] == items[q];
    assert q >= p by {
      assert forall j :: 0 <= j < p ==> parse(items[j]).Ok? by {
        forall j | 0 <= j < p ensures parse(items[j]).Ok? {
          assert items[..k][j] == items[j];
          assert parse(items[..k][j]) == Ok(short.yielded[j]);
        }
      }
    }
  }

  /**
   * Once iteration has failed on a prefix, the remaining items change nothing.
   * A corollary of `Instantiated`'s contract, which fixes its result.
   */
  lemma {:induction false} FailureIsFinal(parse: AssetParser, items: seq<Value>, k: nat)
    requires k <= |items|
    requires Instantiated(parse, items[..k]).failure.Some?
    ensures Instantiated(parse, items) == Instantiated(parse, items[..k])
  {
    FailuresAgree(parse, items, k);
  }


  /**
   * A consumer that stops after the first `k` raw items has seen a prefix of
   * what the full iteration yields: items are produced in order, one at a time.
   * A corollary of `Instantiated`'s contract, which fixes its result.
   */
  lemma {:induction false} PrefixIsConsistent(parse: AssetParser, items: seq<Value>, k: nat)
    requires k <= |items|
    ensures Instantiated(parse, items[..k]).yielded <= Instantiated(parse, items).yielded
  {
    var short, long := Instantiated(parse, items[..k]), Instantiated(parse, items);
    forall j | 0 <= j < |short.yielded| && j < |long.yielded|
      ensures short.yielded[j] == long.yielded[j]
    {
      assert items[..k][j] == items[j];
      assert parse(items[j]) == Ok(short.yielded[j]);
    }
    if short.failure.Some? {
      FailuresAgree(parse, items, k);
    } else {
      assert AllParse(parse, items[..k]);
      assert forall j :: 0 <= j < k ==> parse(items[j]).Ok? by {
        forall j | 0 <= j < k ensures parse(items[j]).Ok? {
          assert items[..k][j] == items[j];
        }
      }
    }
  }


  /** When every item parses, the iteration is the in-order map of the parser over the items. */
  lemma InstantiatedMapsInOrder(parse: AssetParser, items: seq<Value>)
    requires AllParse(parse, items)
    ensures Instantiated(parse, items) == Iteration(ParsedEach(parse, items), None)
  {
    var it := Instantiated(parse, items);
    assert |it.yielded| == |items|;
    forall k | 0 <= k < |items|
      ensures it.yielded[k] == ParsedEach(parse, items)[k]
    {
      assert parse(items[k]) == Ok(it.yielded[k]);
    }
  }

  /**
   * With a rejected item at `bad` and every earlier item accepted, iteration
   * yields exactly the earlier items' assets and then fails at `bad`.
   */
  lemma FailsAtFirstRejected(parse: AssetParser, items: seq<Value>, bad: nat)
    requires bad < |items| && parse(items[bad]).Err?
    requires AllParse(parse, items[..bad])
    ensures Instantiated(parse, items).failure == Some(Failure(bad, parse(items[bad]).error))
    ensures Instantiated(parse, items).yielded == ParsedEach(parse, items[..bad])
  {
    var it := Instantiated(parse, items);
    assert !AllParse(parse, items);
    assert forall j :: 0 <= j < bad ==> parse(items[j]).Ok? by {
      forall j | 0 <= j < bad ensures parse(items[j]).Ok? {
        assert items[..bad][j] == items[j];
      }
    }
    assert it.failure.value.position == bad;
    forall k | 0 <= k < bad
      ensures it.yielded[k] == ParsedEach(parse, items[..bad])[k]
    {
      assert items[..bad][k] == items[k];
      assert parse(items[k]) == Ok(it.yielded[k]);
    }
  }

  /**
   * The asset instantiator's `foreach`: parse each raw item in order and hand
   * it on, and stop at the first item the parser rejects.
   */
  method Materialise(assets: AssetsCollection) returns (it: Iteration)
    ensures it == Iterated(assets)
  {
    if assets.Eager? {
      return Iteration(assets.known, None);
    }
    var parse, raw := assets.parse, assets.raw;
    var yielded: seq<Asset> := [];
    var failure: Option<Failure> := None;
    var i := 0;
    while i < |raw| && failure.None?
      invariant 0 <= i <= |raw|
      invariant Iteration(yielded, failure) == Instantiated(parse, raw[..i])
    {
      assert raw[..i + 1][..i] == raw[..i];
      match parse(raw[i]) {
        case Ok(a) => yielded := yielded + [a];
        case Err(reason) => failure := Some(Failure(i, reason));
      }
      i := i + 1;
    }
    if i < |raw| {
      FailureIsFinal(parse, raw, i);
    } else {
      assert raw[..i] == raw;
    }
    it := Iteration(yielded, failure);
  }
}
