/**
 * Client walk-throughs of the controller, proved from the method contracts
 * alone: what a viewer sees after a sequence of clicks.
 */
module Scenarios {
  import opened Wrappers
  import opened Selection
  import opened ScrollNav
  import opened Viewer

  /** A two-sample lidar manifest: selecting lidar shows the first sample at the four template paths. */
  method LidarFirstSample()
  {
    var c := new Controller(["wifi-csi", "lidar"], ["#overview", "#demo"]);
    c.LoadSamples(Some(map["lidar" := ["a.png", "b.png"]]));
    var before := c.slots[..];
    c.ClickModality("lidar");
    assert FirstIndexOf(["wifi-csi", "lidar"], "lidar") == Some(1);
    assert ActiveItems(["wifi-csi", "lidar"], "lidar") == [false, true];
    assert ToShow(c.samples, Some("lidar"), At(0)) == Some(Sample("lidar", "a.png"));
    RenderedPaths(before, "lidar", "a.png");
    assert c.slots[0].src == "data/samples/" + "lidar" + "/signals/" + "a.png";
    assert c.slots[1].src == "data/samples/" + "lidar" + "/poses-universalpose/" + "a.png";
    assert c.slots[2].src == c.slots[1].src;
    assert c.slots[3].src == "data/samples/" + "lidar" + "/poses-baseline/" + "a.png";
    assert c.modalityLabel == "LiDAR" && c.baselineLabel == "Point Transformer";
  }

  /** The next control shows the second lidar sample; a failed baseline image shows its placeholder only. */
  method LidarSecondSample()
  {
    var c := new Controller(["lidar"], []);
    c.LoadSamples(Some(map["lidar" := ["a.png", "b.png"]]));
    c.ClickModality("lidar");

    var before := c.slots[..];
    c.NextSample();
    assert c.currentIndex == At(1);
    assert ToShow(c.samples, Some("lidar"), At(1)) == Some(Sample("lidar", "b.png"));
    RenderedPaths(before, "lidar", "b.png");
    assert c.slots[0].src == "data/samples/" + "lidar" + "/signals/" + "b.png";
    assert c.slots[3].src == "data/samples/" + "lidar" + "/poses-baseline/" + "b.png";

    c.ImageFailed(Baseline);
    assert !c.slots[3].visible && c.slots[3].placeholderText == NotAvailable;
    assert c.slots[0].visible && c.slots[1].visible && c.slots[2].visible;
  }

  /** Two steps through a two-sample list come back to the first sample. */
  method LidarWrapAround()
  {
    var c := new Controller(["lidar"], []);
    c.LoadSamples(Some(map["lidar" := ["a.png", "b.png"]]));
    c.ClickModality("lidar");
    c.NextSample();
    assert c.currentIndex == At(1);
    var before := c.slots[..];
    c.NextSample();
    assert c.currentIndex == At(0);
    assert ToShow(c.samples, Some("lidar"), At(0)) == Some(Sample("lidar", "a.png"));
    RenderedPaths(before, "lidar", "a.png");
    assert c.slots[3].src == "data/samples/" + "lidar" + "/poses-baseline/" + "a.png";
  }

  /** Selecting one modality and then another leaves only the second one's item active. */
  method TwoSelections()
  {
    var c := new Controller(["lidar", "depth"], []);
    c.ClickModality("lidar");
    assert FirstIndexOf(["lidar", "depth"], "lidar") == Some(0);
    assert c.itemActive[..] == [true, false];
    c.ClickModality("depth");
    assert FirstIndexOf(["lidar", "depth"], "depth") == Some(1);
    assert c.itemActive[..] == [false, true];
  }

  /** After a failed manifest load, selecting a modality sets labels but renders nothing. */
  method FailedLoadShowsPlaceholders()
  {
    var c := new Controller(["mmwave"], []);
    c.LoadSamples(None);
    c.ClickModality("mmwave");
    assert c.nextEnabled && c.modalityLabel == "mmWave";
    assert c.slots[..] == [Blank, Blank, Blank, Blank];
    c.NextSample();
    assert c.slots[..] == [Blank, Blank, Blank, Blank];
    c.ClickModality("sonar");
    assert c.modalityLabel == "sonar" && c.baselineLabel == "Expert Baseline";
    assert FirstIndexOf(["mmwave"], "sonar") == None;
    assert ActiveItems(["mmwave"], "sonar") == [false];
  }

  /** The section under the look-ahead is highlighted; a scroll with no match keeps it. */
  method ScrollWalkthrough()
  {
    var c := new Controller([], ["#intro", "#method", "#results"]);
    var sections := [Section(0, 500, "intro"), Section(500, 400, "method"), Section(900, 1000, "results")];
    c.UpdateNavOnScroll(sections, 400);
    TopBoundaryHighlights(c.navHrefs, seq(3, _ => false), sections, 400, 1);
    assert Anchor("method") == "#method";
    var h := Highlight(c.navHrefs, "method");
    assert h[0] == ("#intro" == "#method") && h[1] && h[2] == ("#results" == "#method");
    assert "#intro"[1] != "#method"[1] && "#results"[1] != "#method"[1];
    assert h == [false, true, false];
    assert c.navActive[..] == [false, true, false];
    c.UpdateNavOnScroll(sections, 5000);
    NoMatchUnchanged(c.navHrefs, [false, true, false], sections, 5000);
    assert c.navActive[..] == [false, true, false];
  }
}
