// Destroy's removal of volume files by the glob <app>-*.img.

module Volumes {

  /** The backing file of a volume (handleCreateVolume). */
  function VolumeFile(app: string, volume: string): string {
    app + "-" + volume + ".img"
  }

  /** filepath.Match(app + "-*.img", file), for an app name without glob characters. */
  predicate GlobHits(app: string, file: string) {
    && |app| + 5 <= |file|
    && app + "-" <= file
    && file[|file| - 4..] == ".img"
  }

  /** Whose files destroying `app` removes: its own, those of apps named
      `app`-something, and those of an app of which `app` is a dashed extension
      when the volume's name continues the same way. */
  lemma GlobHitsExactly(app: string, other: string, volume: string)
    requires '.' !in app
    ensures GlobHits(app, VolumeFile(other, volume)) <==>
            || app == other
            || app + "-" <= other
            || (other + "-" <= app && app[|other| + 1..] + "-" <= volume)
  {
    var file := VolumeFile(other, volume);
    assert file[|file| - 4..] == ".img";
    var n := |app|;
    if app + "-" <= file {
      assert forall i | 0 <= i < n :: file[i] == app[i];
      assert file[n] == '-';
      if n < |other| {
        assert app + "-" == file[..n + 1] == other[..n + 1];
      } else if n == |other| {
        assert app == file[..n] == other;
      } else {
        Extends(app, other, volume);
      }
    }
    if app == other { assert file[..n + 1] == app + "-"; }
    if app + "-" <= other { assert file[..n + 1] == other[..n + 1]; }
    if other + "-" <= app && app[|other| + 1..] + "-" <= volume {
      var p := app[|other| + 1..];
      assert app == other + "-" + p;
      assert file[..n + 1] == other + "-" + volume[..|p| + 1];
    }
  }

  lemma Extends(app: string, other: string, volume: string)
    requires '.' !in app && |app| > |other| && app + "-" <= VolumeFile(other, volume)
    ensures other + "-" <= app && app[|other| + 1..] + "-" <= volume && |app| + 5 <= |VolumeFile(other, volume)|
  {
    var file, n := VolumeFile(other, volume), |app|;
    assert file[..n] == app && file[n] == '-';
    assert app[..|other| + 1] == file[..|other| + 1] == other + "-";
    var dot := |other| + 1 + |volume|;
    assert file[dot] == '.';
    assert forall i | 0 <= i < n :: file[i] == app[i] && app[i] in app;
    assert n < dot;
    assert volume[..n - |other|] == file[|other| + 1..n + 1];
    assert app[|other| + 1..] + "-" == file[|other| + 1..n + 1];
  }

  /** Destroying "web" also removes the files of "web-api". */
  lemma DestroyTakesNamesakes(volume: string)
    ensures GlobHits("web", VolumeFile("web-api", volume))
  {
    GlobHitsExactly("web", "web-api", volume);
  }
}
