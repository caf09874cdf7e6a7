/**
 * `pages/PlantSelect.tsx`: the catalogue screen's environment filter,
 * environment list and paging state. HTTP responses are parameters.
 */
module PlantSelectScreen {
  import opened Wrappers
  import opened Seqs
  import opened PlantTable

  datatype Environment = Environment(key: string, title: string)

  const AllEnvironments := Environment("all", "Todos")

  /** The environment buttons: "Todos" first, then the fetched environments in order. */
  function EnvironmentList(fetched: seq<Environment>): (r: seq<Environment>)
    ensures |r| == |fetched| + 1 && r[0].key == "all" && r[0].title == "Todos"
    ensures forall i :: 0 <= i < |fetched| ==> r[i + 1] == fetched[i]
  {
    [AllEnvironments] + fetched
  }

  function InEnvironment(env: string): PlantProps -> bool
  {
    (p: PlantProps) => env in p.environments
  }

  /** `plants.filter(plant => plant.environments.includes(env))`. */
  function PlantsIn(plants: seq<PlantProps>, env: string): seq<PlantProps>
  {
    Filter(plants, InEnvironment(env))
  }

  /**
   * The filtered list keeps the original order, holds only plants of the
   * environment, and drops none of them (each as often as it occurs).
   */
  lemma {:induction false} PlantsInIsTheEnvironmentsSublist(plants: seq<PlantProps>, env: string)
    ensures SubsequenceOf(PlantsIn(plants, env), plants)
    ensures forall p :: p in PlantsIn(plants, env) ==> env in p.environments
    ensures forall p :: p in plants && env in p.environments ==> p in PlantsIn(plants, env)
    ensures forall p :: multiset(PlantsIn(plants, env))[p] == if env in p.environments then multiset(plants)[p] else 0
  {
    FilterIsSubsequence(plants, InEnvironment(env));
    FilterCounts(plants, InEnvironment(env));
  }

  /** The state of a `PlantSelect` screen. */
  class Screen {
    var enviroments: Option<seq<Environment>>
    var plants: Option<seq<PlantProps>>
    var filteredPlants: Option<seq<PlantProps>>
    var enviromentSelected: string
    var loading: bool
    var page: int
    var loadingMore: bool

    /** Pages count from 1, and once the list is shown or paged the plant lists are defined. */
    ghost predicate Valid()
      reads this
    {
      page >= 1 && ((page > 1 || !loading) ==> plants.Some? && filteredPlants.Some?)
    }

    constructor ()
      ensures Valid()
      ensures enviroments.None? && plants.None? && filteredPlants.None?
      ensures enviromentSelected == "all" && loading && page == 1 && !loadingMore
    {
      enviroments, plants, filteredPlants := None, None, None;
      enviromentSelected, loading, page, loadingMore := "all", true, 1, false;
    }

    /** `handleEnviromentSelected(enviroment)`. */
    method HandleEnviromentSelected(enviroment: string)
      requires Valid()
      modifies this`enviromentSelected, this`filteredPlants
      ensures Valid()
      ensures enviromentSelected == enviroment
      ensures enviroment == "all" ==> filteredPlants == plants
      ensures enviroment != "all" ==>
        filteredPlants == if plants.None? then None else Some(PlantsIn(plants.value, enviroment))
    {
      enviromentSelected := enviroment;
      if enviroment == "all" {
        filteredPlants := plants;
        return;
      }
      var filtered := if plants.None? then None else Some(PlantsIn(plants.value, enviroment));
      filteredPlants := filtered;
    }

    /**
     * `handleFetchMore(distance)`, wired to the list's end-reached event,
     * which exists only once the list is shown. It returns the page the
     * `fetchPlants` it starts asks for: the value of `page` the handler
     * was created with, since the increment is not yet visible to it.
     */
    method HandleFetchMore(distance: real) returns (fetchPage: Option<int>)
      requires Valid() && !loading
      modifies this`loadingMore, this`page
      ensures Valid()
      ensures distance < 1.0 ==> fetchPage.None? && loadingMore == old(loadingMore) && page == old(page)
      ensures distance >= 1.0 ==> fetchPage == Some(old(page)) && loadingMore && page == old(page) + 1
    {
      if distance < 1.0 {
        return None;
      }
      loadingMore := true;
      fetchPage := Some(page);
      page := page + 1;
    }

    /**
     * `fetchPlants()` once `api.get` answered for `requestedPage` with
     * `data` (`None` for a missing body; an empty array is a body).
     */
    method FetchPlants(requestedPage: int, data: Option<seq<PlantProps>>)
      requires Valid() && 1 <= requestedPage <= page
      modifies this`plants, this`filteredPlants, this`loading, this`loadingMore
      ensures Valid()
      ensures data.None? ==>
        loading && plants == old(plants) && filteredPlants == old(filteredPlants) && loadingMore == old(loadingMore)
      ensures data.Some? && requestedPage > 1 ==>
        && plants == Some(old(plants).value + data.value)
        && filteredPlants == Some(old(filteredPlants).value + data.value)
      ensures data.Some? && requestedPage == 1 ==> plants == Some(data.value) && filteredPlants == Some(data.value)
      ensures data.Some? ==> !loading && !loadingMore
    {
      if data.None? {
        loading := true;
        return;
      }
      if requestedPage > 1 {
        plants := Some(plants.value + data.value);
        filteredPlants := Some(filteredPlants.value + data.value);
      } else {
        plants := Some(data.value);
        filteredPlants := Some(data.value);
      }
      loading := false;
      loadingMore := false;
    }

    /** `fetchEnviroment()` once the environments request answered with `data`. */
    method FetchEnviroment(data: seq<Environment>)
      requires Valid()
      modifies this`enviroments
      ensures Valid()
      ensures enviroments == Some(EnvironmentList(data))
    {
      enviroments := Some(EnvironmentList(data));
    }
  }
}
