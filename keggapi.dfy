/**
 * KeggAPI: one session with KEGG's SOAP service. Connecting and every
 * request are retried until they succeed or the retry budget is spent; the
 * entry last asked for and the last successful answer are kept in the
 * session's `input` and `result` slots.
 */
module KeggApi {

  import opened Wrappers
  import opened PyStr

  /** A KEGG identifier such as `ko:K00001`, `rn:R00010` or `path:map00010`. */
  type Id = string

  /** One row of `get_linkdb_by_entry`: the linked entry and the link's type. */
  datatype Link = Link(entryId2: Id, linkType: string)

  /** What a request leaves in `result`: a string (an HTML page, a picture, a
      URL), a list of ids (a title split at ';', pathway or reaction ids), or
      a list of links. */
  datatype Reply = Text(text: string) | Items(ids: seq<string>) | Links(links: seq<Link>)

  /** Python truthiness of a result: a non-empty string or list. */
  predicate Truthy(r: Reply)
  {
    match r
    case Text(s) => s != []
    case Items(xs) => xs != []
    case Links(ls) => ls != []
  }

  /** The SOAP operations Kegg.py calls, one per request method. */
  datatype Endpoint =
    | Btit                                                // getTitle: btit(entry)
    | LinkdbReaction                                      // getReactions: get_linkdb_by_entry(entry, 'reaction')
    | PathwaysByReactions                                 // getPathways: get_pathways_by_reactions([entry])
    | PathwaysByCompounds                                 // getPathwaysByComp: get_pathways_by_compounds([entry])
    | ReactionsByPathway                                  // getReactionsFromPath: get_reactions_by_pathway(entry)
    | CompoundsByPathway                                  // getCompoundsFromPath: get_compounds_by_pathway(entry)
    | ColoredPicture(objs: seq<Id>, colors: seq<string>)  // getColoredPathway: color_pathway_by_objects, then the picture behind that URL
    | ColoredUrl(objs: seq<Id>, colors: seq<string>)      // getURLColoredPathway: get_html_of_colored_pathway_by_objects
    | ColoredHtml(objs: seq<Id>, colors: seq<string>)     // getHTMLColoredPathway: the same, then the page behind that URL

  /** The service as a client sees it: what the `attempt`-th try (counted
      from 0) of a request for an entry returns, or None when that try
      raises. */
  type Remote = (Endpoint, Id, nat) -> Option<Reply>

  /** The WSDL location every session connects to. */
  const ApiUrl: string := "http://soap.genome.jp/KEGG.wsdl"

  /** The `retries=3` default that every caller in Kegg.py relies on. */
  const Retries: int := 3

  /** How many tries a retry loop makes at most: it checks `attempts >= retries`
      only after a failure, so there is always at least one try. */
  function Budget(retries: int): (b: nat)
    ensures b >= 1
    ensures retries >= 1 ==> b == retries
  {
    if retries < 1 then 1 else retries
  }

  /** The first try in [from, budget) that succeeds, if any. */
  function FirstSuccess(ok: nat -> bool, from: nat, budget: nat): Option<nat>
    decreases budget - from
  {
    if from >= budget then None
    else if ok(from) then Some(from)
    else FirstSuccess(ok, from + 1, budget)
  }

  /** `FirstSuccess` finds a try exactly when one succeeds, and the one it
      finds is the first: every earlier try failed. */
  lemma {:induction false} FirstSuccessSpec(ok: nat -> bool, from: nat, budget: nat)
    ensures FirstSuccess(ok, from, budget).Some? <==> exists k :: from <= k < budget && ok(k)
    ensures FirstSuccess(ok, from, budget).Some? ==>
              var k := FirstSuccess(ok, from, budget).value;
              from <= k < budget && ok(k) && forall j :: from <= j < k ==> !ok(j)
    decreases budget - from
  {
    if from < budget && !ok(from) {
      FirstSuccessSpec(ok, from + 1, budget);
      if exists k :: from <= k < budget && ok(k) {
        var k :| from <= k < budget && ok(k);
        assert from + 1 <= k;
      }
    }
  }

  /** Only the tries below the budget are ever looked at. */
  lemma {:induction false} FirstSuccessLocal(ok: nat -> bool, ok': nat -> bool, from: nat, budget: nat)
    requires forall k :: from <= k < budget ==> ok(k) == ok'(k)
    ensures FirstSuccess(ok, from, budget) == FirstSuccess(ok', from, budget)
    decreases budget - from
  {
    if from < budget {
      FirstSuccessLocal(ok, ok', from + 1, budget);
    }
  }

  /** How many tries a retry loop makes: up to the first success, or the
      whole budget. */
  function Tries(ok: nat -> bool, budget: nat): nat
  {
    match FirstSuccess(ok, 0, budget)
    case None => budget
    case Some(k) => k + 1
  }

  /** A retry loop makes at least one try and never more than `retries`
      (when `retries` is positive). */
  lemma TriesBound(ok: nat -> bool, retries: int)
    ensures 1 <= Tries(ok, Budget(retries)) <= Budget(retries)
    ensures retries >= 1 ==> Tries(ok, Budget(retries)) <= retries
  {
    FirstSuccessSpec(ok, 0, Budget(retries));
  }

  /** One try of a request. An unconnected session has no proxy, so every
      try raises. For `btit` the raw text is stripped and split at ';'; a
      reply that is not text makes `strip` raise. Every other reply is kept
      as returned. */
  function Attempt(connected: bool, remote: Remote, ep: Endpoint, id: Id, k: nat): Option<Reply>
  {
    if !connected then None
    else
      match remote(ep, id, k)
      case None => None
      case Some(r) =>
        if !ep.Btit? then Some(r)
        else if r.Text? then Some(Items(Split(Strip(r.text), ';')))
        else None
  }

  /** Which tries of a request succeed. */
  function Answered(connected: bool, remote: Remote, ep: Endpoint, id: Id): nat -> bool
  {
    (k: nat) => Attempt(connected, remote, ep, id, k).Some?
  }

  /** What a request with `retries` obtains: the reply of its first
      successful try, or None when every try within the budget raised. */
  function Fetch(connected: bool, remote: Remote, ep: Endpoint, id: Id, retries: int): Option<Reply>
  {
    match FirstSuccess(Answered(connected, remote, ep, id), 0, Budget(retries))
    case None => None
    case Some(k) => Attempt(connected, remote, ep, id, k)
  }

  /** A request fails exactly when all of its tries fail; when it succeeds
      its reply is that of a try all of whose predecessors failed. */
  lemma FetchSpec(connected: bool, remote: Remote, ep: Endpoint, id: Id, retries: int)
    ensures Fetch(connected, remote, ep, id, retries).None? <==>
              forall k :: 0 <= k < Budget(retries) ==> Attempt(connected, remote, ep, id, k).None?
    ensures Fetch(connected, remote, ep, id, retries).Some? ==>
              exists k :: 0 <= k < Budget(retries) &&
                Attempt(connected, remote, ep, id, k) == Fetch(connected, remote, ep, id, retries) &&
                forall j :: 0 <= j < k ==> Attempt(connected, remote, ep, id, j).None?
  {
    var ok := Answered(connected, remote, ep, id);
    FirstSuccessSpec(ok, 0, Budget(retries));
    if FirstSuccess(ok, 0, Budget(retries)).Some? {
      var k := FirstSuccess(ok, 0, Budget(retries)).value;
      assert ok(k);
      assert Attempt(connected, remote, ep, id, k) == Fetch(connected, remote, ep, id, retries);
      forall j | 0 <= j < k ensures Attempt(connected, remote, ep, id, j).None? {
        assert !ok(j);
      }
    } else {
      forall k | 0 <= k < Budget(retries) ensures Attempt(connected, remote, ep, id, k).None? {
        assert !ok(k);
      }
    }
  }

  /** Two services that answer the first `Budget(retries)` tries alike give
      the same outcome: no try past the budget is made. */
  lemma FetchLocal(connected: bool, remote: Remote, remote': Remote, ep: Endpoint, id: Id, retries: int)
    requires forall k :: 0 <= k < Budget(retries) ==> remote(ep, id, k) == remote'(ep, id, k)
    ensures Fetch(connected, remote, ep, id, retries) == Fetch(connected, remote', ep, id, retries)
  {
    var ok := Answered(connected, remote, ep, id);
    var ok' := Answered(connected, remote', ep, id);
    forall k | 0 <= k < Budget(retries) ensures ok(k) == ok'(k) {
      assert Attempt(connected, remote, ep, id, k) == Attempt(connected, remote', ep, id, k);
    }
    FirstSuccessLocal(ok, ok', 0, Budget(retries));
    FirstSuccessSpec(ok, 0, Budget(retries));
  }

  /** A title that was obtained is a non-empty list: `split` never returns
      an empty list, so a title is always truthy. */
  lemma TitleTruthy(connected: bool, remote: Remote, id: Id, retries: int)
    requires Fetch(connected, remote, Btit, id, retries).Some?
    ensures Fetch(connected, remote, Btit, id, retries).value.Items?
    ensures Truthy(Fetch(connected, remote, Btit, id, retries).value)
  {
    var ok := Answered(connected, remote, Btit, id);
    FirstSuccessSpec(ok, 0, Budget(retries));
    var k := FirstSuccess(ok, 0, Budget(retries)).value;
    assert ok(k);
  }

  class KeggAPI {
    const apiUrl: string
    /** `_keggserv` is not None: a WSDL proxy was built. */
    var connected: bool
    var input: Option<Id>
    var result: Option<Reply>

    /** `KeggAPI()`: unconnected, with clean slots. */
    constructor ()
      ensures apiUrl == ApiUrl && !connected && input == None && result == None
    {
      apiUrl := ApiUrl;
      connected := false;
      input := None;
      result := None;
    }

    /** `clean`: empties both slots. */
    method Clean()
      modifies this`input, this`result
      ensures input == None && result == None
    {
      input := None;
      result := None;
    }

    /** `connect`: tries to build the proxy until it works or `retries` tries
        failed. `dial(k)` tells whether the k-th try works; `tries` is how many
        were made. */
    method Connect(dial: nat -> bool, retries: int) returns (ok: bool, tries: nat)
      modifies this`connected
      ensures ok <==> FirstSuccess(dial, 0, Budget(retries)).Some?
      ensures tries == Tries(dial, Budget(retries))
      ensures connected == (old(connected) || ok)
    {
      var attempts := 0;
      while true
        invariant 0 <= attempts < Budget(retries)
        invariant FirstSuccess(dial, 0, Budget(retries)) == FirstSuccess(dial, attempts, Budget(retries))
        invariant connected == old(connected)
        decreases Budget(retries) - attempts
      {
        if dial(attempts) {
          connected := true;
          return true, attempts + 1;
        }
        attempts := attempts + 1;
        if attempts >= retries {
          return false, attempts;
        }
      }
    }

    /** The retry loop shared by `getTitle`, `getReactions`, `getPathways`,
        `getPathwaysByComp`, `getReactionsFromPath`, `getCompoundsFromPath`,
        `getColoredPathway`, `getURLColoredPathway` and
        `getHTMLColoredPathway`, each of which is this method with its own
        endpoint. `input` is set before every try; `result` only when a try
        succeeds. `ok` false is the point where the source raises. */
    method Request(ep: Endpoint, entry: Id, remote: Remote, retries: int) returns (ok: bool, tries: nat)
      modifies this`input, this`result
      ensures input == Some(entry)
      ensures ok <==> Fetch(connected, remote, ep, entry, retries).Some?
      ensures result == if ok then Fetch(connected, remote, ep, entry, retries) else old(result)
      ensures tries == Tries(Answered(connected, remote, ep, entry), Budget(retries))
    {
      ghost var answered := Answered(connected, remote, ep, entry);
      var attempts := 0;
      while true
        invariant 0 <= attempts < Budget(retries)
        invariant FirstSuccess(answered, 0, Budget(retries)) == FirstSuccess(answered, attempts, Budget(retries))
        invariant result == old(result)
        invariant attempts > 0 ==> input == Some(entry)
        decreases Budget(retries) - attempts
      {
        input := Some(entry);
        var reply := Attempt(connected, remote, ep, entry, attempts);
        if reply.Some? {
          assert answered(attempts);
          result := reply;
          return true, attempts + 1;
        }
        assert !answered(attempts);
        attempts := attempts + 1;
        if attempts >= retries {
          return false, attempts;
        }
      }
    }
  }

}
