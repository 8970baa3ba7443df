/** The client's tag command (pkg/client/image/tag.go): the source image and the new tags are
    normalised on the client, then sent in one request to the agent. Connecting to the agent and the
    call itself are an input: `call` answers a request with the call's error, if any. */
module TagCommand {
  import opened Outcomes
  import opened Refs

  datatype TagRequest = TagRequest(image: string, tags: seq<string>)

  /** The source image as sent: its tag-defaulted normalised form when it parses, else as typed. */
  function SourceImage(p: Parsers, image: string): (r: string)
    ensures p.parseNormalizedNamed(image).Ok? ==> r == RefString(TagNameOnly(p.parseNormalizedNamed(image).value))
    ensures p.parseNormalizedNamed(image).Err? ==> r == image
  {
    var named := p.parseNormalizedNamed(image);
    if named.Ok? then RefString(TagNameOnly(named.value)) else image
  }

  /** Every one of the first n tags parses. */
  predicate AllParse(p: Parsers, tags: seq<string>, n: nat)
    requires n <= |tags|
  {
    forall i | 0 <= i < n :: p.parseNormalizedNamed(tags[i]).Ok?
  }

  /** Normalising the tags in order (tag.go:20-27): each tag becomes the full form of its parse, into a
      list of the same length; the first tag that does not parse stops the loop with its error. */
  method NormalizeTags(p: Parsers, tags: seq<string>) returns (r: Result<seq<string>>)
    ensures r.Ok? <==> AllParse(p, tags, |tags|)
    ensures r.Ok? ==> |r.value| == |tags| && forall i | 0 <= i < |tags| :: r.value[i] == RefString(p.parseNormalizedNamed(tags[i]).value)
    ensures r.Err? ==> exists i | 0 <= i < |tags| :: AllParse(p, tags, i) && p.parseNormalizedNamed(tags[i]) == Err(r.error)
  {
    var normalized := new string[|tags|];
    for i := 0 to |tags|
      invariant AllParse(p, tags, i)
      invariant forall k | 0 <= k < i :: normalized[k] == RefString(p.parseNormalizedNamed(tags[k]).value)
    {
      var named := p.parseNormalizedNamed(tags[i]);
      if named.Err? {
        return Err(named.error);
      }
      normalized[i] := RefString(named.value);
    }
    return Ok(normalized[..]);
  }

  /** Tag.Do (tag.go:16-42): no request is made unless every tag parses; then the request carries the
      source image and the normalised tags, and the call's error is returned as it is. */
  method Do(p: Parsers, image: string, tags: seq<string>, call: TagRequest -> Option<Error>)
    returns (err: Option<Error>, sent: Option<TagRequest>)
    ensures sent.Some? <==> AllParse(p, tags, |tags|)
    ensures sent.None? ==> err.Some? && exists i | 0 <= i < |tags| :: AllParse(p, tags, i) && p.parseNormalizedNamed(tags[i]) == Err(err.value)
    ensures sent.Some? ==> sent.value.image == SourceImage(p, image) && |sent.value.tags| == |tags|
    ensures sent.Some? ==> forall i | 0 <= i < |tags| :: sent.value.tags[i] == RefString(p.parseNormalizedNamed(tags[i]).value)
    ensures sent.Some? ==> err == call(sent.value)
  {
    var source := SourceImage(p, image);
    var normalized := NormalizeTags(p, tags);
    if normalized.Err? {
      return Some(normalized.error), None;
    }
    var req := TagRequest(source, normalized.value);
    return call(req), Some(req);
  }
}
