/** The two file-serving views: the generated map, and the catch-all view
    for the front end's files, which must leave API paths and the map alone. */
module StaticRoutes {
  import opened PyStr
  import opened Http
  import PlanTrip

  const FrontendDir: string := "frontend_web"

  /** `serve_frontend_files(filename)` */
  function ServeFrontendFile(filename: string): (r: Response)
    ensures r == TextResponse(404, "Not Found") <==>
              StartsWith(filename, "api/") || filename == PlanTrip.MapFilename
    ensures r != TextResponse(404, "Not Found") ==> r == SendFile(FrontendDir, filename)
  {
    if StartsWith(filename, "api/") || filename == PlanTrip.MapFilename then TextResponse(404, "Not Found")
    else SendFile(FrontendDir, filename)
  }

  /** `serve_map()`: the map file if it is there, a 404 text otherwise. */
  function ServeMap(mapDir: string, mapExists: bool): (r: Response)
    ensures r.SendFile? <==> mapExists
    ensures r.SendFile? ==> r.filename == PlanTrip.MapFilename
  {
    if mapExists then SendFile(mapDir, PlanTrip.MapFilename) else TextResponse(404, "Map file not found.")
  }

  /** The catch-all never serves a path under `api/` from the front-end
      directory, so no API path leaks into static serving. */
  lemma ApiPathsNeverServed(rest: string)
    ensures ServeFrontendFile("api/" + rest) == TextResponse(404, "Not Found")
  {
    assert ("api/" + rest)[..4] == "api/";
  }
}
