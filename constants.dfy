/**
 * The values the client reads from its `constants` module, which is not part of this model:
 * they are passed in as parameters wherever the code consults them.
 */
module Constants {
  import opened Wrappers

  datatype Region = Region(name: string, url: string)

  /**
   * The `REGIONS` object: `get_all_regions()` as its name/URL pairs in dict order,
   * `get_demo_regions()` and `get_all()` as URL lists, and `get_region(name)` as a lookup.
   */
  datatype RegionTable = RegionTable(
    regions: seq<Region>,
    demoUrls: seq<string>,
    allUrls: seq<string>,
    getRegion: string -> Option<string>)

  /** The `API_LIMITS` entries the order validator reads. */
  datatype ApiLimits = ApiLimits(
    minOrderAmount: real,
    maxOrderAmount: real,
    minDuration: int,
    maxDuration: int)

  /** The opening of a Socket.IO auth event frame, which both the client and the keep-alive manager test an SSID for. */
  const AUTH_PREFIX: string := "42[\"auth\","

  /** `REGIONS.get_region(name)` gives a URL that is not empty: Python finds it truthy. */
  predicate HasUrl(table: RegionTable, name: string) {
    table.getRegion(name).Some? && table.getRegion(name).value != ""
  }
}
