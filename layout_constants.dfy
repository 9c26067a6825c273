/** The browser's constant tables: the photo layouts, the frame canvas
    dimensions, the timing and transfer constants, the frame presets and
    the steps of the flow. */
module Layout {
  import opened Common

  datatype LayoutInfo = LayoutInfo(key: string, shots: nat, name: string)

  /** `LAYOUTS`, in key order. */
  const LAYOUTS: seq<LayoutInfo> := [
    LayoutInfo("layout1", 1, "Layout 1"),
    LayoutInfo("layout2", 2, "Layout 2"),
    LayoutInfo("layout3", 3, "Layout 3")
  ]

  /** `LAYOUTS[key]?.shots` over a table: the shots of the first entry
      under the key. */
  function ShotsIn(t: seq<LayoutInfo>, key: string): (r: Option<nat>)
    ensures r.Some? <==> exists i :: 0 <= i < |t| && t[i].key == key
    ensures r.Some? ==> exists i :: 0 <= i < |t| && t[i].key == key && t[i].shots == r.value
  {
    if t == [] then None
    else if t[0].key == key then Some(t[0].shots)
    else
      var r := ShotsIn(t[1..], key);
      assert forall i :: 1 <= i < |t| ==> t[i] == t[1..][i - 1];
      r
  }

  function ShotsOf(key: string): Option<nat> {
    ShotsIn(LAYOUTS, key)
  }

  /** `layoutN` takes N shots, and the table has nothing else. */
  lemma LayoutShots()
    ensures forall i :: 0 <= i < |LAYOUTS| ==> LAYOUTS[i].shots == i + 1
    ensures forall i :: 0 <= i < |LAYOUTS| ==> ShotsOf(LAYOUTS[i].key) == Some(LAYOUTS[i].shots)
  {
  }

  datatype Canvas = Canvas(cellW: nat, cellH: nat, gap: nat, headerH: nat, footerH: nat)

  const FRAME_CANVAS: Canvas := Canvas(1200, 1800, 100, 170, 260)

  const COUNTDOWN_SECONDS: nat := 6
  const SHOT_DELAY_MS: nat := 2000
  const PROCESSING_RETRY_LIMIT: nat := 40
  const PROCESSING_RETRY_DELAY_MS: nat := 500
  /** `64 * 1024`, the data-channel chunk size. */
  const CHUNK_SIZE: nat := 64 * 1024

  const DEFAULT_FRAME_SRC: string := "/frame.png"

  datatype FramePreset = FramePreset(id: string, name: string, mode: string, src: Option<string>, description: string)

  const FRAME_PRESETS: seq<FramePreset> := [
    FramePreset("default", "Default", "default", None, "Layout asli"),
    FramePreset("classic", "Classic", "custom", Some("/frames/classic.svg"), "Border clean"),
    FramePreset("soft", "Soft", "custom", Some("/frames/soft.svg"), "Pastel vibes"),
    FramePreset("midnight", "Midnight", "custom", Some("/frames/midnight.svg"), "Dark glam")
  ]

  datatype StepLabel = StepLabel(id: string, text: string, icon: string)

  const STEP_LABELS: seq<StepLabel> := [
    StepLabel("join", "Join", "\U{1F44B}"),
    StepLabel("room", "Room", "\U{1F3E0}"),
    StepLabel("layout-select", "Layout", "\U{1F3A8}"),
    StepLabel("countdown", "Capture", "\U{1F4F8}"),
    StepLabel("processing", "Processing", "\U{23F3}"),
    StepLabel("frame-select", "Frame", "\U{1F5BC}"),
    StepLabel("result", "Download", "\U{1F4BE}")
  ]

  /** The first preset is the plain layout without an image; every other
      one is a custom frame with an image; their ids are distinct and none
      is the `upload` id the uploaded frame takes. */
  lemma PresetsShape()
    ensures FRAME_PRESETS[0].id == "default" && FRAME_PRESETS[0].mode == "default" && FRAME_PRESETS[0].src.None?
    ensures forall i :: 1 <= i < |FRAME_PRESETS| ==> FRAME_PRESETS[i].mode == "custom" && FRAME_PRESETS[i].src.Some?
    ensures forall i, j :: 0 <= i < j < |FRAME_PRESETS| ==> FRAME_PRESETS[i].id != FRAME_PRESETS[j].id
    ensures forall i :: 0 <= i < |FRAME_PRESETS| ==> FRAME_PRESETS[i].id != "upload"
  {
  }

  /** The steps, in the order the flow goes through them, each once. */
  lemma StepOrder()
    ensures seq(|STEP_LABELS|, i requires 0 <= i < |STEP_LABELS| => STEP_LABELS[i].id)
            == ["join", "room", "layout-select", "countdown", "processing", "frame-select", "result"]
    ensures forall i, j :: 0 <= i < j < |STEP_LABELS| ==> STEP_LABELS[i].id != STEP_LABELS[j].id
  {
  }

  /** The chunk size is 64 KiB and every canvas dimension is positive. */
  lemma NumericConstants()
    ensures CHUNK_SIZE == 65536
    ensures FRAME_CANVAS.cellW > 0 && FRAME_CANVAS.cellH > 0 && FRAME_CANVAS.gap > 0
    ensures FRAME_CANVAS.headerH > 0 && FRAME_CANVAS.footerH > 0
  {
  }
}
