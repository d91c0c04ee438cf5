/**
 * The two fixed label tables of the viewer and their lookups with fallback.
 * The page writes `table[modality] || fallback`: an absent key, and also a key
 * whose value is the empty string, yields the fallback.
 */
module Labels {

  /** Human-readable modality names (js/main.js:62-69). */
  const DisplayNames: map<string, string> := map[
    "wifi-csi" := "WiFi-CSI",
    "mmwave" := "mmWave",
    "lidar" := "LiDAR",
    "depth" := "Depth",
    "tsp" := "TSP (acoustic)",
    "wifi-csi2" := "WiFi-CSI (Multi receiver)"
  ]

  /** The comparison system shown beside each modality (js/main.js:8-15). */
  const BaselineNames: map<string, string> := map[
    "wifi-csi" := "MetaFi",
    "mmwave" := "Point Transformer",
    "lidar" := "Point Transformer",
    "depth" := "A2J",
    "tsp" := "TSP2Pose",
    "wifi-csi2" := "MetaFi++"
  ]

  const DefaultBaseline: string := "Expert Baseline"

  /** `table[key] || fallback` over a table of strings. */
  function LookupOr(table: map<string, string>, key: string, fallback: string): string
  {
    if key in table && table[key] != "" then table[key] else fallback
  }

  /** The text of the current-modality label. */
  function DisplayName(modality: string): (r: string)
    ensures modality in DisplayNames ==> r == DisplayNames[modality]
    ensures modality !in DisplayNames ==> r == modality
    ensures modality != "" ==> r != ""
  {
    LookupOr(DisplayNames, modality, modality)
  }

  /** The text of the baseline-name heading. */
  function BaselineName(modality: string): (r: string)
    ensures modality in BaselineNames ==> r == BaselineNames[modality]
    ensures modality !in BaselineNames ==> r == DefaultBaseline
    ensures r != ""
  {
    LookupOr(BaselineNames, modality, DefaultBaseline)
  }
}
