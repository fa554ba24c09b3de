/** The subdomain hook: the tenant label taken from the host name, the
    validity state that starts pending and settles once, and the document
    title set for a valid tenant. */
module SubdomainValidation {
  import opened Wrappers
  import opened Strings

  /** The JavaScript value held in `isValidSubdomain`: `null` while pending,
      a boolean, or `undefined` when the lookup reply has no `valid` field. */
  datatype Validity = Null | Bool(b: bool) | Undefined {
    /** JavaScript truthiness of the state. */
    predicate Truthy() {
      this == Bool(true)
    }
  }

  /** The `valid` field of a lookup reply, as `data?.valid` reads it: missing
      (or no body), `null`, or a boolean. */
  datatype ValidField = Absent | NullValue | BoolValue(b: bool)

  /** The outcome of `GET /check-subdomain`: a reply, or a thrown error
      (transport failure, non-2xx status). */
  datatype Lookup = Replied(valid: ValidField) | Threw

  /** The tenant label derived from a host name. */
  function Subdomain(hostname: string): Option<string> {
    var hostParts := Split(hostname, '.');
    var isLocalhost := hostname == "localhost";
    var hasSubdomain := |hostParts| > 2 || (!isLocalhost && |hostParts| > 1);
    if hasSubdomain then Some(hostParts[0]) else None
  }

  /** "localhost" is one label, so the rule is simply "more than one label". */
  lemma SubdomainIsFirstOfSeveralLabels(hostname: string)
    ensures Subdomain(hostname) ==
      if |Split(hostname, '.')| > 1 then Some(Split(hostname, '.')[0]) else None
  {
    if hostname == "localhost" {
      SplitWithoutSeparator(hostname, '.');
    }
  }

  /** A host name with a dot yields its text up to the first dot; one without
      a dot (including "localhost") yields nothing. */
  lemma SubdomainIsTextBeforeFirstDot(hostname: string)
    ensures '.' in hostname <==> Subdomain(hostname).Some?
    ensures Subdomain(hostname).Some? ==>
      (var first := Subdomain(hostname).value;
       first <= hostname && '.' !in first && |first| < |hostname| && hostname[|first|] == '.')
  {
    SubdomainIsFirstOfSeveralLabels(hostname);
    SplitCount(hostname, '.');
    SplitFirstPart(hostname, '.');
    CountPositive(hostname, '.');
  }

  /** A host name "<first>.<rest>" whose first part has no dot yields "<first>". */
  lemma SubdomainOfDotted(first: string, rest: string)
    requires '.' !in first
    ensures Subdomain(first + "." + rest) == Some(first)
  {
    var h := first + "." + rest;
    assert h[|first|] == '.';
    SubdomainIsTextBeforeFirstDot(h);
    var f := Subdomain(h).value;
    assert f == h[..|f|] == first;
  }

  lemma LocalhostHasNoSubdomain()
    ensures Subdomain("localhost") == None
  {
    SplitWithoutSeparator("localhost", '.');
  }

  lemma SubdomainExamples()
    ensures Subdomain("a.localhost") == Some("a")
    ensures Subdomain("acme.quotely.shop") == Some("acme")
    ensures Subdomain("quotely.shop") == Some("quotely")
  {
    SubdomainOfDotted("a", "localhost");
    assert "a" + "." + "localhost" == "a.localhost";
    SubdomainOfDotted("acme", "quotely.shop");
    assert "acme" + "." + "quotely.shop" == "acme.quotely.shop";
    SubdomainOfDotted("quotely", "shop");
    assert "quotely" + "." + "shop" == "quotely.shop";
  }

  /** The value the validation effect stores: `true` with no usable subdomain
      and no lookup; otherwise the reply's `valid` field as it is, or `false`
      if the lookup threw. */
  function Settle(subdomain: Option<string>, lookup: Lookup): (v: Validity)
    ensures v == Null <==> Truthy(subdomain) && lookup == Replied(NullValue)
    ensures !Truthy(subdomain) ==> v == Bool(true)
    ensures Truthy(subdomain) && lookup == Threw ==> v == Bool(false)
    ensures Truthy(subdomain) && lookup == Replied(Absent) ==> v == Undefined
    ensures Truthy(subdomain) && lookup.Replied? && lookup.valid.BoolValue? ==> v == Bool(lookup.valid.b)
  {
    if Truthy(subdomain) then
      match lookup
      case Threw => Bool(false)
      case Replied(valid) => StoredValue(valid)
    else Bool(true)
  }

  /** `setIsValidSubdomain(data?.valid)`: the field is stored unchanged. */
  function StoredValue(valid: ValidField): Validity {
    match valid
    case Absent => Undefined
    case NullValue => Null
    case BoolValue(b) => Bool(b)
  }

  /** The title effect: "<subdomain> - Dashboard" once the tenant is valid. */
  function TitleAfter(validity: Validity, subdomain: Option<string>, title: string): (t: string)
  {
    if validity.Truthy() && Truthy(subdomain) then subdomain.value + " - Dashboard" else title
  }

  /** The title changes only for a truthy validity and a non-empty subdomain,
      and then names the subdomain. */
  lemma TitleAfterSpec(validity: Validity, subdomain: Option<string>, title: string)
    ensures TitleAfter(validity, subdomain, title) != title ==> validity == Bool(true) && Truthy(subdomain)
    ensures validity == Bool(true) && Truthy(subdomain) ==>
      TitleAfter(validity, subdomain, title)[..|subdomain.value|] == subdomain.value
    ensures validity == Bool(true) && Truthy(subdomain) ==>
      TitleAfter(validity, subdomain, title) == subdomain.value + " - Dashboard"
  {
  }

  /** The hook's state for one page load. */
  class SubdomainHook {
    const hostname: string
    const subdomain: Option<string>
    var isValidSubdomain: Validity
    var title: string
    /** Subdomains looked up so far. */
    var lookups: seq<string>

    constructor (hostname: string, title: string)
      ensures this.hostname == hostname && subdomain == Subdomain(hostname)
      ensures isValidSubdomain == Null && this.title == title && lookups == []
    {
      this.hostname := hostname;
      subdomain := Subdomain(hostname);
      isValidSubdomain := Null;
      this.title := title;
      lookups := [];
    }

    /** checkSubdomain: one lookup when there is a usable subdomain, none
        otherwise; the state leaves `Null` unless the reply's `valid` is
        itself `null`. */
    method CheckSubdomain(lookup: Lookup)
      modifies this`isValidSubdomain, this`lookups
      ensures isValidSubdomain == Settle(subdomain, lookup)
      ensures isValidSubdomain == Null <==> Truthy(subdomain) && lookup == Replied(NullValue)
      ensures lookups == old(lookups) + (if Truthy(subdomain) then [subdomain.value] else [])
    {
      if Truthy(subdomain) {
        lookups := lookups + [subdomain.value];
        match lookup
        case Threw =>
          isValidSubdomain := Bool(false);
        case Replied(valid) =>
          isValidSubdomain := StoredValue(valid);
      } else {
        isValidSubdomain := Bool(true);
      }
    }

    /** The title effect, run after the state changes. */
    method SyncTitle()
      modifies this`title
      ensures title == TitleAfter(isValidSubdomain, subdomain, old(title))
    {
      if isValidSubdomain.Truthy() && Truthy(subdomain) {
        title := subdomain.value + " - Dashboard";
      }
    }
  }
}
