/** The dashboard page (app/dashboard/page.tsx): the signed-in user's resumes, a
    client-side search over their titles, and delete, download and preview actions.
    Requests to the backend are not modelled; each handler is given how its request
    ended instead. */
module Dashboard {
  import opened Seqs
  import opened Text

  datatype Option<T> = None | Some(value: T)

  /** A dashboard card; `createdAt` and `updatedAt` are the `new Date()` of loading, in milliseconds. */
  datatype Resume = Resume(id: string, userId: string, title: string, createdAt: nat, updatedAt: nat)

  /** How a request ended: an ok response carrying its payload, a response that is not ok,
      or an exception from `fetch` or from reading the body. */
  datatype Response<T> = Ok(payload: T) | NotOk | Threw

  /** The `resume_ids` member of the list response: an array of ids, or anything else.
      An array holding an element without a `slice` method (a number, `null`, a plain object)
      is not an `IdArray`: `id.slice` throws on it and the catch empties the list, so such a
      payload is given to `LoadResumes` as `Threw`. An element that is itself an array has a
      `slice` method and yields a card; that payload is outside this model. */
  datatype ResumeIds = IdArray(ids: seq<string>) | NotArray

  /** `Resume ${id.slice(0, 6)}` */
  function TitleFor(id: string): string
  {
    "Resume " + id[..if |id| < 6 then |id| else 6]
  }

  /** The `resume_ids.map(...)` of `loadResumes` for user `email`, loaded at time `now`. */
  function ResumesFromIds(ids: seq<string>, email: string, now: nat): (r: seq<Resume>)
    ensures |r| == |ids|
    ensures forall i :: 0 <= i < |ids| ==>
      && r[i].id == ids[i] && r[i].userId == email && r[i].title == TitleFor(ids[i])
      && r[i].createdAt == now && r[i].updatedAt == now
  {
    if ids == [] then []
    else [Resume(ids[0], email, TitleFor(ids[0]), now, now)] + ResumesFromIds(ids[1..], email, now)
  }

  function Ids(rs: seq<Resume>): seq<string>
  {
    if rs == [] then [] else [rs[0].id] + Ids(rs[1..])
  }

  /** Loading keeps the server's ids, in the server's order. */
  lemma {:induction false} LoadedIds(ids: seq<string>, email: string, now: nat)
    ensures Ids(ResumesFromIds(ids, email, now)) == ids
  {
    if ids != [] {
      LoadedIds(ids[1..], email, now);
      var r := ResumesFromIds(ids, email, now);
      assert r[1..] == ResumesFromIds(ids[1..], email, now);
    }
  }

  /** Every loaded title is "Resume " followed by the id's first six characters (all of a shorter id). */
  lemma TitleShape(id: string)
    ensures |TitleFor(id)| <= 13 && TitleFor(id)[..7] == "Resume "
    ensures |id| <= 6 ==> TitleFor(id) == "Resume " + id
    ensures |id| > 6 ==> TitleFor(id) == "Resume " + id[..6]
  {
  }

  /** The search box's test for one card: `title.toLowerCase().includes(query.toLowerCase())`. */
  predicate MatchesQuery(r: Resume, query: string)
  {
    Contains(Lower(r.title), Lower(query))
  }

  /** `filteredResumes`: the cards whose title matches the query, in list order. */
  function FilterResumes(resumes: seq<Resume>, query: string): (r: seq<Resume>)
    ensures forall x :: x in r ==> x in resumes && MatchesQuery(x, query)
    ensures forall x :: x in resumes && MatchesQuery(x, query) ==> x in r
    ensures forall x :: multiset(r)[x] == if MatchesQuery(x, query) then multiset(resumes)[x] else 0
    ensures IsSubsequence(r, resumes)
    ensures query == "" ==> r == resumes
  {
    var keep := (x: Resume) => MatchesQuery(x, query);
    FilterFacts(resumes, keep);
    ContainsEmpty();
    Filter(resumes, keep)
  }

  /** `prev.filter((r) => r.id !== id)`: exactly the cards with that id are dropped. */
  function WithoutId(resumes: seq<Resume>, id: string): (r: seq<Resume>)
    ensures forall x :: x in r ==> x in resumes && x.id != id
    ensures forall x :: x in resumes && x.id != id ==> x in r
    ensures forall x :: multiset(r)[x] == if x.id == id then 0 else multiset(resumes)[x]
    ensures IsSubsequence(r, resumes)
  {
    var keep := (x: Resume) => x.id != id;
    FilterFacts(resumes, keep);
    Filter(resumes, keep)
  }

  /** `resume_${id}.html` */
  function DownloadFileName(id: string): (name: string)
    ensures IdOfFileName(name) == Some(id)
  {
    var name := "resume_" + id + ".html";
    assert name[..7] == "resume_" && name[7..|name| - 5] == id && name[|name| - 5..] == ".html";
    name
  }

  /** Reads the id back out of a download file name. */
  function IdOfFileName(name: string): Option<string>
  {
    if |name| >= 12 && name[..7] == "resume_" && name[|name| - 5..] == ".html"
    then Some(name[7..|name| - 5])
    else None
  }

  /** Different resumes are saved under different file names. */
  lemma FileNamesDistinct(a: string, b: string)
    requires a != b
    ensures DownloadFileName(a) != DownloadFileName(b)
  {
  }

  class DashboardPage {
    /** The stored identity; `None` stands for `null`. */
    var email: Option<string>
    var resumes: seq<Resume>
    var searchQuery: string
    var loading: bool

    /** The page's initial state once the stored identity has been read. */
    constructor (email: Option<string>)
      ensures this.email == email && resumes == [] && searchQuery == "" && loading
    {
      this.email := email;
      resumes, searchQuery, loading := [], "", true;
    }

    /** `email` is truthy: set and not the empty string. */
    predicate SignedIn()
      reads this
    {
      email.Some? && email.value != ""
    }

    /** The cards on screen. */
    function Visible(): (r: seq<Resume>)
      reads this
      ensures IsSubsequence(r, resumes)
      ensures forall x :: x in r <==> x in resumes && MatchesQuery(x, searchQuery)
      ensures forall x :: multiset(r)[x] == if MatchesQuery(x, searchQuery) then multiset(resumes)[x] else 0
    {
      FilterResumes(resumes, searchQuery)
    }

    /** The search box's `onChange`. */
    method SetQuery(query: string)
      modifies this`searchQuery
      ensures searchQuery == query
    {
      searchQuery := query;
    }

    /** `loadResumes()` at time `now`, whose request ended with `response`: without an identity
        nothing happens; otherwise the list becomes the returned ids, or empty on any failure,
        and `loading` ends false on every path. */
    method LoadResumes(response: Response<ResumeIds>, now: nat)
      modifies this`resumes, this`loading
      ensures !old(SignedIn()) ==> resumes == old(resumes) && loading == old(loading)
      ensures old(SignedIn()) ==> !loading
      ensures old(SignedIn()) ==>
                resumes == if response.Ok? && response.payload.IdArray?
                           then ResumesFromIds(response.payload.ids, email.value, now)
                           else []
    {
      if !SignedIn() {
        return;
      }
      loading := true;
      match response {
        case Ok(data) =>
          if data.IdArray? {
            resumes := ResumesFromIds(data.ids, email.value, now);
          } else {
            resumes := [];
          }
        case NotOk =>
          resumes := [];
        case Threw =>
          resumes := [];
      }
      loading := false;
    }

    /** `handleDelete(id)`, whose request ended with `response`: the card goes only after a
        success; a failure, an exception or a missing identity leaves the list as it was. */
    method Delete(id: string, response: Response<()>)
      modifies this`resumes
      ensures old(SignedIn()) && response.Ok? ==> resumes == WithoutId(old(resumes), id)
      ensures !(old(SignedIn()) && response.Ok?) ==> resumes == old(resumes)
    {
      if !SignedIn() {
        return;
      }
      if response.Ok? {
        resumes := WithoutId(resumes, id);
      }
    }

    /** `handleDownload(id)`, whose request ended with `response`: the name the document is saved
        under, or `None` when nothing is saved (no identity, a failed or a thrown request). */
    method Download(id: string, response: Response<()>) returns (saved: Option<string>)
      ensures saved.Some? <==> SignedIn() && response.Ok?
      ensures saved.Some? ==> IdOfFileName(saved.value) == Some(id)
    {
      if !SignedIn() {
        return None;
      }
      if !response.Ok? {
        return None;
      }
      saved := Some(DownloadFileName(id));
    }

    /** `handlePreview(id)`: the resume opened in a new tab, or `None` without an identity. */
    method Preview(id: string) returns (target: Option<string>)
      ensures target.Some? <==> SignedIn()
      ensures target.Some? ==> target.value == id
    {
      if !SignedIn() {
        return None;
      }
      target := Some(id);
    }
  }
}
