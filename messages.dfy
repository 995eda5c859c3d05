/** The messages exchanged between the page (control context) and the synthesis
    worker (compute context). The worker answers with a closed set of statuses. */
module Messages {
  import opened Base
  import Voices

  /** What the worker posts back, one variant per `status` string. */
  datatype WorkerMessage =
    | Ready(voices: map<string, Voices.VoiceInfo>, device: string)
    | Device(device: string)
    | Progress
    | Stream(audio: seq<Float32>, text: string)
    | Complete
    | Error(error: string)

  /** `{ type: "generate", text, voice }`, posted by the page to the worker. */
  datatype GenerateMessage = GenerateMessage(text: string, voice: string)
}
