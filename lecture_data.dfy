/**
 * The lecture as the frontend receives it (the `Slide` and `LectureData`
 * interfaces of frontend/src/App.tsx and LecturePlayer.tsx).
 */
module LectureData {
  import opened Wrappers

  /** One slide; `audioUrl` is None for the JSON `null`. */
  datatype Slide = Slide(slideNum: int, title: string, bullets: seq<string>, svgUrl: string,
                         audioUrl: Option<string>)

  datatype Lecture = Lecture(lectureId: string, topic: string, slides: seq<Slide>, script: seq<string>)
}
