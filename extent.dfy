/**
 * Extent resolution at the start of `HandleWFS` (lib/wfs.go): an explicit
 * `bbox` beats `city`, `city` is looked up among the project's bookmarks,
 * and the configured default extent is the fallback.
 */
module Extent {
  import opened Wrappers
  import opened UrlValues
  import opened Config

  datatype Bookmark = Bookmark(id: string, title: string, rotation: real, extent: seq<real>, content: string)

  /** `ProjectConfig`: the remote project document, bookmarks grouped by group and city id. */
  datatype ProjectConfig = ProjectConfig(
    bookmarks: map<string, map<string, Bookmark>>,
    projection: string,
    zoomExtent: seq<real>)

  /** The city the request names; an empty `city` value means the configured default city. */
  function CityId(requestQuery: Entries, settings: BookmarkSettings): (cityId: string)
    ensures First(requestQuery, "city") != "" ==> cityId == First(requestQuery, "city")
    ensures First(requestQuery, "city") == "" ==> cityId == settings.defaultCity
  {
    var named := First(requestQuery, "city");
    if named == "" then settings.defaultCity else named
  }

  /** Whether the project document has a bookmark for `cityId` in the configured group. */
  predicate HasBookmark(project: ProjectConfig, settings: BookmarkSettings, cityId: string)
  {
    settings.group in project.bookmarks && cityId in project.bookmarks[settings.group]
  }

  /**
   * The extent `HandleWFS` queries with. `project` is what fetching the
   * project document returns (read only on the `city` path); `parseBbox`
   * stands for decoding "[" + text + "]" as JSON numbers, `None` when that
   * fails and the default is left in place.
   */
  function ResolveExtent(
    requestQuery: Entries,
    config: Config,
    project: Result<ProjectConfig, string>,
    parseBbox: string -> Option<seq<real>>): (extent: seq<real>)
    ensures "bbox" in requestQuery ==>
      extent == (match parseBbox(First(requestQuery, "bbox"))
                 case Some(e) => e
                 case None => config.defaultExtent)
    ensures "bbox" !in requestQuery && "city" in requestQuery && project.Success? ==>
      var cityId := CityId(requestQuery, config.bookmarks);
      if HasBookmark(project.value, config.bookmarks, cityId)
      then extent == project.value.bookmarks[config.bookmarks.group][cityId].extent
      else extent == project.value.zoomExtent
    ensures "bbox" !in requestQuery && ("city" !in requestQuery || project.Failure?) ==>
      extent == config.defaultExtent
  {
    var extent := config.defaultExtent;
    if "bbox" in requestQuery then
      match parseBbox(First(requestQuery, "bbox"))
      case Some(parsed) => parsed
      case None => extent
    else if "city" in requestQuery then
      match project
      case Failure(_) => extent
      case Success(pc) =>
        var cityId := CityId(requestQuery, config.bookmarks);
        if HasBookmark(pc, config.bookmarks, cityId) then pc.bookmarks[config.bookmarks.group][cityId].extent
        else pc.zoomExtent
    else extent
  }

  /** With a `bbox` in the request the project document plays no part. */
  lemma BboxIgnoresProject(
    requestQuery: Entries,
    config: Config,
    project1: Result<ProjectConfig, string>,
    project2: Result<ProjectConfig, string>,
    parseBbox: string -> Option<seq<real>>)
    requires "bbox" in requestQuery
    ensures ResolveExtent(requestQuery, config, project1, parseBbox)
         == ResolveExtent(requestQuery, config, project2, parseBbox)
  {
  }

  /** An empty `city` value resolves exactly as naming the default city would. */
  lemma EmptyCityIsDefaultCity(
    requestQuery: Entries,
    config: Config,
    project: Result<ProjectConfig, string>,
    parseBbox: string -> Option<seq<real>>)
    requires "bbox" !in requestQuery && "city" in requestQuery
    requires First(requestQuery, "city") == ""
    ensures ResolveExtent(requestQuery, config, project, parseBbox)
         == ResolveExtent(requestQuery["city" := [config.bookmarks.defaultCity]], config, project, parseBbox)
  {
  }
}
