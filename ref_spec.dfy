/** refSpec (pkg/client/image/spec.go:18-34): turning what a user typed into the image spec sent to the
    agent. An image ID (or a prefix of one) that the image service recognises is used as the ID;
    anything else is normalised as an image name with the tag defaulted.

    The image service's status answer is an input: an error, or a response whose image is absent
    (None) or carries an ID. */
module RefSpec {
  import opened Outcomes
  import opened Refs
  import Text

  const IdPrefix: string := "sha256:"

  /** The status answer names the image when its ID starts with "sha256:" and the text typed. */
  predicate IdMatches(status: Result<Option<string>>, image: string) {
    status.Ok? && status.value.Some? && Text.HasPrefix(status.value.value, IdPrefix + image)
  }

  /** The tag-defaulted normalised form of a name. */
  function Normalized(n: Named): string { RefString(TagNameOnly(n)) }

  /** refSpec as written. The debug log at spec.go:23 reads the response's image before the error is
      looked at; the gRPC client returns no response with an error, so a failing status call is a nil
      dereference. And when the status call succeeds but neither branch applies, spec.go:33 returns no
      spec together with a nil error. Ok(None) stands for that (nil, nil) answer. */
  function RefSpecAsWritten(p: Parsers, image: string, status: Result<Option<string>>): (r: Result<Option<string>>)
    ensures status.Err? ==> r == Err(Panic(NilDereference))
  {
    if status.Err? then Err(Panic(NilDereference))
    else if IdMatches(status, image) then Ok(Some(status.value.value))
    else if p.parseNormalizedNamed(image).Ok? then Ok(Some(Normalized(p.parseNormalizedNamed(image).value)))
    else Ok(None)
  }

  /** A failing status call panics, even for a name that parses and would have been normalised. */
  lemma RefSpecAsWrittenPanics(p: Parsers, image: string, e: Error)
    requires p.parseNormalizedNamed(image).Ok?
    ensures RefSpecAsWritten(p, image, Err(e)).Err? && RefSpecAsWritten(p, image, Err(e)).error.Panic?
    ensures RefSpec(p, image, Err(e)) == Ok(Normalized(p.parseNormalizedNamed(image).value))
  {
  }

  /** An unknown image that is not a valid name, such as "UPPER" (names are lower case), yields
      neither a spec nor an error. */
  lemma RefSpecAsWrittenAnswersNothing(p: Parsers, image: string)
    requires p.parseNormalizedNamed(image).Err?
    ensures RefSpecAsWritten(p, image, Ok(None)) == Ok(None)
    ensures RefSpec(p, image, Ok(None)) == Err(p.parseNormalizedNamed(image).error)
  {
  }

  /** refSpec as intended: the ID when the status call recognises it, else the normalised name, else
      the status call's error or, when that succeeded, the parse error. */
  function RefSpec(p: Parsers, image: string, status: Result<Option<string>>): (r: Result<string>)
    // The ID branch comes first, even for text that would also parse as a name.
    ensures IdMatches(status, image) ==> r == Ok(status.value.value)
    ensures !IdMatches(status, image) && p.parseNormalizedNamed(image).Ok? ==> r == Ok(Normalized(p.parseNormalizedNamed(image).value))
    ensures r.Err? ==> !IdMatches(status, image) && p.parseNormalizedNamed(image).Err?
    ensures r.Err? && status.Err? ==> r.error == status.error
    ensures r.Err? && status.Ok? ==> r.error == p.parseNormalizedNamed(image).error
  {
    if IdMatches(status, image) then Ok(status.value.value)
    else if p.parseNormalizedNamed(image).Ok? then Ok(Normalized(p.parseNormalizedNamed(image).value))
    else if status.Err? then Err(status.error)
    else Err(p.parseNormalizedNamed(image).error)
  }

  /** Wherever the code as written answers with a spec, the corrected one answers with the same. */
  lemma RefSpecAgreesWhereDefined(p: Parsers, image: string, status: Result<Option<string>>)
    requires RefSpecAsWritten(p, image, status).Ok? && RefSpecAsWritten(p, image, status).value.Some?
    ensures RefSpec(p, image, status) == Ok(RefSpecAsWritten(p, image, status).value.value)
  {
  }

  /** A spec found by ID is the ID of an image, and one found by name is a fully qualified, tagged
      reference. */
  lemma RefSpecShape(p: Parsers, image: string, status: Result<Option<string>>)
    requires RefSpec(p, image, status).Ok?
    ensures var s := RefSpec(p, image, status).value;
      Text.HasPrefix(s, IdPrefix + image) || exists n: Named :: !IsNameOnly(n) && s == RefString(n)
  {
    if !IdMatches(status, image) {
      var n := TagNameOnly(p.parseNormalizedNamed(image).value);
      assert !IsNameOnly(n);
    }
  }
}
