/** PlatformsPage/ViewModel/PlatformViewModel.swift: the list of platforms,
    loaded with a guard against a second load while one runs. */
module Platforms {
  import opened Common
  import opened GameModels

  /** The request handed to the platforms service. */
  datatype PlatformsRequest = PlatformsRequest(page: int, pageSize: int)

  /** What a platforms response puts on screen: its results, or nothing when
      `results` is absent. */
  function PlatformsOf(response: PlatformResponse): (ps: seq<PlatformModel>)
    ensures response.results.Some? ==> ps == response.results.value
    ensures response.results.None? ==> ps == []
  {
    match response.results
    case Some(rs) => rs
    case None => []
  }

  class PlatformViewModel {
    var platforms: seq<PlatformModel>
    var isLoading: bool
    var errorMessage: Option<string>
    var currentPage: int
    const pageSize: int

    /** No method changes the page counter: it stays 1, and the page size
        is 10. */
    ghost predicate Valid()
      reads this
    {
      currentPage == 1 && pageSize == 10
    }

    constructor ()
      ensures Valid()
      ensures platforms == [] && !isLoading && errorMessage == None
    {
      platforms := [];
      isLoading := false;
      errorMessage := None;
      currentPage := 1;
      pageSize := 10;
    }

    /** `fetchPlatforms`: a no-op while a load runs; otherwise marks
        loading, clears the error, and requests page 1 of size 10. */
    method FetchPlatforms() returns (req: Option<PlatformsRequest>)
      requires Valid()
      modifies this`isLoading, this`errorMessage
      ensures Valid()
      ensures old(isLoading) ==> req == None && errorMessage == old(errorMessage) && isLoading
      ensures !old(isLoading) ==> req == Some(PlatformsRequest(1, 10)) && isLoading && errorMessage == None
    {
      if isLoading {
        return None;
      }
      isLoading := true;
      errorMessage := None;
      req := Some(PlatformsRequest(currentPage, pageSize));
    }

    /** The platforms arrived: they replace the list. */
    method ReceivePlatforms(response: PlatformResponse)
      requires Valid()
      modifies this`platforms
      ensures Valid()
      ensures platforms == PlatformsOf(response)
    {
      platforms := if response.results.Some? then response.results.value else [];
    }

    /** The request completed: loading always ends; only a failure sets
        the error. */
    method CompletePlatforms(c: Completion)
      requires Valid()
      modifies this`isLoading, this`errorMessage
      ensures Valid()
      ensures !isLoading
      ensures errorMessage == if c.Failure? then Some(c.description) else old(errorMessage)
    {
      isLoading := false;
      if c.Failure? {
        errorMessage := Some(c.description);
      }
    }

    /** `getPlatformsCount`. */
    function PlatformsCount(): (n: int)
      reads this
      ensures n == |platforms|
    {
      |platforms|
    }

    /** `getPlatform(at:)`: the platform at `index`, or nil outside the
        list. */
    function GetPlatform(index: int): (r: Option<PlatformModel>)
      reads this
      ensures r.Some? <==> 0 <= index < |platforms|
      ensures r.Some? ==> r.value == platforms[index]
    {
      if 0 <= index < |platforms| then Some(platforms[index]) else None
    }
  }

  /** Two fetches in a row, the second while the first is in flight, issue
      one request; once the first completes, a fetch issues one again, still
      for page 1 of size 10. */
  method DoubleFetchScenario(response: PlatformResponse)
    returns (first: Option<PlatformsRequest>, second: Option<PlatformsRequest>,
             third: Option<PlatformsRequest>, shown: seq<PlatformModel>)
    ensures first == Some(PlatformsRequest(1, 10)) && second == None
    ensures third == Some(PlatformsRequest(1, 10))
    ensures shown == PlatformsOf(response)
  {
    var vm := new PlatformViewModel();
    first := vm.FetchPlatforms();
    second := vm.FetchPlatforms();
    vm.ReceivePlatforms(response);
    vm.CompletePlatforms(Finished);
    third := vm.FetchPlatforms();
    shown := vm.platforms;
  }
}
