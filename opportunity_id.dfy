/**
 * Serialising and parsing THORChain liquidity-pool opportunity ids
 * (src/pages/ThorChainLP/utils.ts). An opportunity id is the asset id and
 * the pool side joined by `*`.
 */
module OpportunityIds {
  import opened Wrappers

  const Separator: char := '*'

  /** What a JavaScript template string prints for `undefined`. */
  const UndefinedText: string := "undefined"

  /** Position of the first `c` in `s`, if any. */
  function IndexOf(s: string, c: char): (r: Option<nat>)
    ensures r.None? <==> c !in s
    ensures r.Some? ==> r.value < |s| && s[r.value] == c && c !in s[..r.value]
  {
    if s == [] then None
    else if s[0] == c then Some(0)
    else match IndexOf(s[1..], c)
      case None => None
      case Some(i) =>
        assert s[..i + 1] == [s[0]] + s[1..][..i];
        Some(i + 1)
  }

  /** `s.split(sep)` for a one-character separator: the pieces between separators, at least one. */
  function Split(s: string, sep: char): (pieces: seq<string>)
    ensures |pieces| >= 1
    ensures forall i :: 0 <= i < |pieces| ==> sep !in pieces[i]
    decreases |s|
  {
    match IndexOf(s, sep)
    case None => [s]
    case Some(i) => [s[..i]] + Split(s[i + 1..], sep)
  }

  /** `pieces.join(sep)`, the inverse of `Split`. */
  function Join(pieces: seq<string>, sep: char): string
  {
    if |pieces| == 0 then ""
    else if |pieces| == 1 then pieces[0]
    else pieces[0] + [sep] + Join(pieces[1..], sep)
  }

  /** Joining a head onto at least one more piece puts a separator between them. */
  lemma JoinCons(head: string, tail: seq<string>, sep: char)
    requires |tail| >= 1
    ensures Join([head] + tail, sep) == head + [sep] + Join(tail, sep)
  {
    assert ([head] + tail)[1..] == tail;
  }

  /** A string without the separator is a single piece. */
  lemma SplitWithoutSeparator(s: string, sep: char)
    requires sep !in s
    ensures Split(s, sep) == [s]
  {
    assert IndexOf(s, sep).None?;
  }

  /** Joining the pieces of a split gives back the original string. */
  lemma {:induction false} JoinSplit(s: string, sep: char)
    ensures Join(Split(s, sep), sep) == s
    decreases |s|
  {
    var r := IndexOf(s, sep);
    if r.Some? {
      var i := r.value;
      var head, rest := s[..i], s[i + 1..];
      var tail := Split(rest, sep);
      assert Split(s, sep) == [head] + tail;
      JoinCons(head, tail, sep);
      JoinSplit(rest, sep);
      assert s == head + [sep] + rest;
    } else {
      assert Split(s, sep) == [s];
    }
  }

  /** In `a + [sep] + rest` with no separator in `a`, the first separator is the one after `a`. */
  lemma {:induction false} IndexOfAfterPrefix(a: string, rest: string, sep: char)
    requires sep !in a
    ensures IndexOf(a + [sep] + rest, sep) == Some(|a|)
  {
    if a != [] {
      IndexOfAfterPrefix(a[1..], rest, sep);
      assert (a + [sep] + rest)[1..] == a[1..] + [sep] + rest;
    }
  }

  /** A string with a separator splits into the text before it and the split of the text after it. */
  lemma SplitAtFirst(a: string, rest: string, sep: char)
    requires sep !in a
    ensures Split(a + [sep] + rest, sep) == [a] + Split(rest, sep)
  {
    var s := a + [sep] + rest;
    IndexOfAfterPrefix(a, rest, sep);
    assert s[..|a|] == a;
    assert s[|a| + 1..] == rest;
  }

  /** Splitting pieces that contain no separator and joining them again gives the pieces back. */
  lemma {:induction false} SplitJoin(pieces: seq<string>, sep: char)
    requires |pieces| >= 1
    requires forall i :: 0 <= i < |pieces| ==> sep !in pieces[i]
    ensures Split(Join(pieces, sep), sep) == pieces
  {
    if |pieces| == 1 {
      SplitWithoutSeparator(pieces[0], sep);
    } else {
      var tail := pieces[1..];
      assert sep !in pieces[0];
      assert forall i :: 0 <= i < |tail| ==> sep !in tail[i] by {
        forall i | 0 <= i < |tail| ensures sep !in tail[i] {
          assert tail[i] == pieces[i + 1];
        }
      }
      SplitJoin(tail, sep);
      SplitAtFirst(pieces[0], Join(tail, sep), sep);
      assert pieces == [pieces[0]] + tail;
    }
  }

  /**
   * An opportunity: the pool's asset id and its side. The side is cast from
   * the parsed text without a check, so any string (or `undefined`, here
   * `None`) can stand in it at run time.
   */
  datatype Opportunity = Opportunity(assetId: string, kind: Option<string>)

  /** Why parsing an opportunity id fails: `fromAssetId` throws on its asset-id part. */
  datatype OpportunityError = InvalidAssetId(assetId: string)

  function KindText(kind: Option<string>): string
  {
    match kind
    case None => UndefinedText
    case Some(t) => t
  }

  /**
   * `toOpportunityId`: the template string `${assetId}*${type}`. When the
   * asset id holds no `*`, the first `*` of the id is the one right after it,
   * with the asset id before it and the printed side after it.
   */
  function ToOpportunityId(o: Opportunity): (id: string)
    ensures Separator !in o.assetId ==>
      && IndexOf(id, Separator) == Some(|o.assetId|)
      && id[..|o.assetId|] == o.assetId
      && id[|o.assetId| + 1..] == KindText(o.kind)
  {
    var printed := o.assetId + [Separator] + KindText(o.kind);
    if Separator in o.assetId then printed
    else
      IndexOfAfterPrefix(o.assetId, KindText(o.kind), Separator);
      printed
  }

  /**
   * `fromOpportunityId`: split on `*`, keep the first two pieces (the second
   * is `undefined` when there is no `*`), and fail when the first piece is
   * not an asset id that `isAssetId` (the `fromAssetId` check) accepts.
   */
  function FromOpportunityId(opportunityId: string, isAssetId: string -> bool): (r: Result<Opportunity, OpportunityError>)
    ensures r.Ok? ==> isAssetId(r.value.assetId) && Separator !in r.value.assetId
    ensures r.Ok? && r.value.kind.Some? ==> Separator !in r.value.kind.value
  {
    var pieces := Split(opportunityId, Separator);
    var assetId := pieces[0];
    if !isAssetId(assetId) then Err(InvalidAssetId(assetId))
    else Ok(Opportunity(assetId, if |pieces| > 1 then Some(pieces[1]) else None))
  }

  /**
   * Parsing read off the id directly: the asset id is the text before the
   * first `*`, the side the text between the first and the second `*` (or
   * to the end); with no `*` the whole id is the asset id and the side is
   * `undefined`.
   */
  lemma FromOpportunityIdFields(opportunityId: string, isAssetId: string -> bool)
    ensures match IndexOf(opportunityId, Separator)
      case None =>
        FromOpportunityId(opportunityId, isAssetId)
          == if isAssetId(opportunityId) then Ok(Opportunity(opportunityId, None))
             else Err(InvalidAssetId(opportunityId))
      case Some(i) =>
        var head, tail := opportunityId[..i], opportunityId[i + 1..];
        var kind := match IndexOf(tail, Separator) case None => tail case Some(j) => tail[..j];
        FromOpportunityId(opportunityId, isAssetId)
          == if isAssetId(head) then Ok(Opportunity(head, Some(kind))) else Err(InvalidAssetId(head))
  {
    match IndexOf(opportunityId, Separator)
    case None =>
    case Some(i) =>
      var tail := opportunityId[i + 1..];
      var pieces := Split(opportunityId, Separator);
      assert pieces == [opportunityId[..i]] + Split(tail, Separator);
      assert pieces[1] == Split(tail, Separator)[0];
      match IndexOf(tail, Separator)
      case None =>
        assert Split(tail, Separator) == [tail];
      case Some(j) =>
        assert Split(tail, Separator)[0] == tail[..j];
  }

  /** An id without `*` parses to the whole id as asset id and an `undefined` side. */
  lemma FromIdWithoutSeparator(opportunityId: string, isAssetId: string -> bool)
    requires Separator !in opportunityId
    ensures FromOpportunityId(opportunityId, isAssetId)
      == if isAssetId(opportunityId) then Ok(Opportunity(opportunityId, None))
         else Err(InvalidAssetId(opportunityId))
  {
    assert IndexOf(opportunityId, Separator).None?;
  }

  /** Everything after a second `*` is discarded. */
  lemma FromIdDropsExtraPieces(assetId: string, kind: string, rest: string, isAssetId: string -> bool)
    requires Separator !in assetId && Separator !in kind
    ensures FromOpportunityId(assetId + [Separator] + kind + [Separator] + rest, isAssetId)
         == FromOpportunityId(assetId + [Separator] + kind, isAssetId)
  {
    var long := assetId + [Separator] + kind + [Separator] + rest;
    var short := assetId + [Separator] + kind;
    assert long == assetId + [Separator] + (kind + [Separator] + rest);
    SplitAtFirst(assetId, kind + [Separator] + rest, Separator);
    SplitAtFirst(kind, rest, Separator);
    var longPieces := Split(long, Separator);
    assert longPieces == [assetId] + ([kind] + Split(rest, Separator));
    assert longPieces[0] == assetId && longPieces[1] == kind && |longPieces| > 1;
    SplitAtFirst(assetId, kind, Separator);
    SplitWithoutSeparator(kind, Separator);
    assert Split(short, Separator) == [assetId, kind];
  }

  /** Parsing fails exactly when the text before the first `*` is not a valid asset id. */
  lemma FromIdFailsOnInvalidAssetId(assetId: string, rest: string, isAssetId: string -> bool)
    requires Separator !in assetId
    ensures FromOpportunityId(assetId + [Separator] + rest, isAssetId).Err? <==> !isAssetId(assetId)
  {
    SplitAtFirst(assetId, rest, Separator);
  }

  /** Round trip: an opportunity whose parts hold no `*` and whose asset id is valid is parsed back. */
  lemma RoundTrip(o: Opportunity, isAssetId: string -> bool)
    requires Separator !in o.assetId
    requires o.kind.Some? && Separator !in o.kind.value
    requires isAssetId(o.assetId)
    ensures FromOpportunityId(ToOpportunityId(o), isAssetId) == Ok(o)
  {
    SplitAtFirst(o.assetId, o.kind.value, Separator);
    SplitWithoutSeparator(o.kind.value, Separator);
  }

  /** An opportunity with an `undefined` side does not survive the round trip: it comes back as the text "undefined". */
  lemma RoundTripUndefinedKind(o: Opportunity, isAssetId: string -> bool)
    requires Separator !in o.assetId && o.kind.None? && isAssetId(o.assetId)
    ensures FromOpportunityId(ToOpportunityId(o), isAssetId) == Ok(o.(kind := Some(UndefinedText)))
  {
    var printed := o.(kind := Some(UndefinedText));
    assert Separator !in UndefinedText;
    assert ToOpportunityId(o) == ToOpportunityId(printed);
    RoundTrip(printed, isAssetId);
  }

  /** Reverse round trip: an id with exactly one `*` and a valid asset-id part is printed back unchanged. */
  lemma ReverseRoundTrip(assetId: string, kind: string, isAssetId: string -> bool)
    requires Separator !in assetId && Separator !in kind && isAssetId(assetId)
    ensures var r := FromOpportunityId(assetId + [Separator] + kind, isAssetId);
      r.Ok? && ToOpportunityId(r.value) == assetId + [Separator] + kind
  {
    SplitAtFirst(assetId, kind, Separator);
    SplitWithoutSeparator(kind, Separator);
  }

  /** An id without `*` is printed back with "*undefined" appended. */
  lemma ReverseRoundTripWithoutSeparator(opportunityId: string, isAssetId: string -> bool)
    requires Separator !in opportunityId && isAssetId(opportunityId)
    ensures var r := FromOpportunityId(opportunityId, isAssetId);
      r.Ok? && ToOpportunityId(r.value) == opportunityId + [Separator] + UndefinedText
  {
    FromIdWithoutSeparator(opportunityId, isAssetId);
  }
}
