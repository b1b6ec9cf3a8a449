/**
 * `Utils.createStateName`: joins an optional prefix to a state name and
 * enforces the 80-character limit on state names. It never throws: every
 * exception inside its `try` block, the length error as well as the
 * TypeError raised by reading `.length` of an undefined prefix, is turned
 * into one fixed error string, which is returned as the name.
 */
module Utils {
  import opened Wrappers

  /** The longest state name the service accepts. */
  const MaxStateNameLength: nat := 80

  /** The message thrown for a name that is too long, and returned by the catch. */
  const NameLengthError: string := "Error: Stepfunction State Names must be less than 80 Characters long, please re-specify the name prefix to try and stay within these service limits"

  /** What the `try` block can throw. */
  datatype Exception =
    | PrefixUndefined   // TypeError: `.length` of an undefined prefix
    | NameTooLong       // the explicit throw for a name over the limit

  /** The candidate name: `prefix-name` for a non-empty prefix, `name` otherwise. */
  function Join(prefix: string, name: string): (r: string)
    ensures |prefix| == 0 ==> r == name
    ensures |prefix| > 0 ==> |r| == |prefix| + 1 + |name|
    ensures |prefix| > 0 ==> r[..|prefix|] == prefix && r[|prefix|] == '-' && r[|prefix| + 1..] == name
  {
    if |prefix| > 0 then prefix + "-" + name else name
  }

  /** The `try` block: the candidate name, or the exception it throws. */
  function TryCreateStateName(prefix: Option<string>, name: string): (r: Result<string, Exception>)
    ensures r == Failure(PrefixUndefined) <==> prefix.None?
    ensures prefix.Some? ==> (r.Success? <==> |Join(prefix.value, name)| <= MaxStateNameLength)
    ensures r.Success? ==> prefix.Some? && r.value == Join(prefix.value, name)
  {
    match prefix
    case None => Failure(PrefixUndefined)
    case Some(p) =>
      var candidate := Join(p, name);
      if |candidate| > MaxStateNameLength then Failure(NameTooLong) else Success(candidate)
  }

  /** `createStateName`: the `try` block with its catch-all handler. */
  function CreateStateName(prefix: Option<string>, name: string): (r: string)
    ensures r == NameLengthError || |r| <= MaxStateNameLength
  {
    match TryCreateStateName(prefix, name)
    case Success(s) => s
    case Failure(_) => NameLengthError
  }

  /** The error string is itself longer than any valid state name. */
  lemma ErrorStringExceedsLimit()
    ensures |NameLengthError| > MaxStateNameLength
  {
  }

  /** A name returned unchanged by an empty prefix, as long as it fits. */
  lemma EmptyPrefixKeepsName(name: string)
    requires |name| <= MaxStateNameLength
    ensures CreateStateName(Some(""), name) == name
  {
  }

  /** A non-empty prefix is joined with a dash when the whole fits. */
  lemma PrefixIsJoined(prefix: string, name: string)
    requires |prefix| > 0 && |prefix| + 1 + |name| <= MaxStateNameLength
    ensures CreateStateName(Some(prefix), name) == prefix + "-" + name
  {
  }

  /**
   * The limit is inclusive and applies to the joined name: a candidate of
   * exactly 80 characters is returned, one of 81 or more is replaced by the
   * error string, however short `name` is on its own.
   */
  lemma LimitAppliesToJoinedName(prefix: string, name: string)
    ensures |Join(prefix, name)| <= MaxStateNameLength ==> CreateStateName(Some(prefix), name) == Join(prefix, name)
    ensures |Join(prefix, name)| > MaxStateNameLength ==> CreateStateName(Some(prefix), name) == NameLengthError
  {
  }

  /** An undefined prefix yields the error string and nothing is thrown. */
  lemma UndefinedPrefixYieldsError(name: string)
    ensures CreateStateName(None, name) == NameLengthError
    ensures |CreateStateName(None, name)| > MaxStateNameLength
  {
  }

  /**
   * The error string is returned exactly when the `try` block throws: since
   * it is over the limit, no accepted candidate can be mistaken for it.
   */
  lemma ErrorIffThrown(prefix: Option<string>, name: string)
    ensures CreateStateName(prefix, name) == NameLengthError
        <==> prefix.None? || |Join(prefix.value, name)| > MaxStateNameLength
    ensures CreateStateName(prefix, name) != NameLengthError
        ==> |CreateStateName(prefix, name)| <= MaxStateNameLength
  {
  }
}
