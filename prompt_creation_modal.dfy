/** components/prompt-creation-modal.tsx: the dialog that creates a prompt. Submitting requires
    six fields; a chosen or dropped file is taken only when it is a video, and taking it starts a
    simulated upload whose progress rises by 10 per tick of a timer until it reaches 100. */
module PromptCreationModal {
  import opened Results
  import opened Text

  /** A file as the browser describes it. */
  datatype VideoFile = VideoFile(name: string, mimeType: string)

  const VideoRequiredMessage := "Please upload a video file"

  /** `file.type.startsWith("video/")`. */
  predicate IsVideo(f: VideoFile) {
    StartsWith(f.mimeType, "video/")
  }

  /** The errors of the form for these field values: one per empty field among the six, under
      the field's name. */
  function PromptErrors(title: string, description: string, team: string, ceremonyType: string,
                        date: string, time: string): (r: map<string, string>)
    ensures r.Keys <= {"title", "description", "team", "ceremonyType", "date", "time"}
    ensures "title" in r <==> title == ""
    ensures "description" in r <==> description == ""
    ensures "team" in r <==> team == ""
    ensures "ceremonyType" in r <==> ceremonyType == ""
    ensures "date" in r <==> date == ""
    ensures "time" in r <==> time == ""
  {
    var e: map<string, string> := if title == "" then map["title" := "Title is required"] else map[];
    var e := if description == "" then e["description" := "Description is required"] else e;
    var e := if team == "" then e["team" := "Team is required"] else e;
    var e := if ceremonyType == "" then e["ceremonyType" := "Ceremony type is required"] else e;
    var e := if date == "" then e["date" := "Date is required"] else e;
    if time == "" then e["time" := "Time is required"] else e
  }

  /** The form passes exactly when none of the six fields is empty. */
  lemma ValidPrompt(title: string, description: string, team: string, ceremonyType: string,
                    date: string, time: string)
    ensures PromptErrors(title, description, team, ceremonyType, date, time) == map[]
            <==> title != "" && description != "" && team != "" && ceremonyType != "" && date != "" && time != ""
  {
    var r := PromptErrors(title, description, team, ceremonyType, date, time);
    if title != "" && description != "" && team != "" && ceremonyType != "" && date != "" && time != "" {
      assert r.Keys == {};
    }
  }

  /** The updater the timer hands to `setUploadProgress` on each tick. */
  function Step(prev: int): int {
    if prev >= 100 then 100 else prev + 10
  }

  /** The progress after `n` ticks of an upload that started at 0. */
  function ProgressAfter(n: nat): int {
    if n == 0 then 0 else Step(ProgressAfter(n - 1))
  }

  /** Progress climbs by 10 per tick from 0, reaches 100 on the tenth tick, stays there, and
      never leaves 0..100. */
  lemma {:induction false} ProgressFromZero(n: nat)
    ensures ProgressAfter(n) == if n < 10 then 10 * n else 100
    ensures 0 <= ProgressAfter(n) <= 100
  {
    if n > 0 {
      ProgressFromZero(n - 1);
    }
  }

  /** The timer stops on the first tick that finds progress at 100: the eleventh. */
  lemma UploadStopsOnEleventhTick(n: nat)
    ensures ProgressAfter(n) >= 100 <==> n >= 10
  {
    ProgressFromZero(n);
  }

  class PromptForm {
    var title: string
    var description: string
    var team: string
    var ceremonyType: string
    var date: string
    var time: string
    var videoFile: Option<VideoFile>
    var uploadProgress: int
    var isUploading: bool
    var errors: map<string, string>

    constructor()
      ensures Blank()
    {
      title, description, team, ceremonyType, date, time := "", "", "", "", "", "";
      videoFile, uploadProgress, isUploading, errors := None, 0, false, map[];
    }

    /** The state `resetForm` leaves. */
    ghost predicate Blank()
      reads this
    {
      && title == "" && description == "" && team == "" && ceremonyType == "" && date == "" && time == ""
      && videoFile.None? && uploadProgress == 0 && !isUploading && errors == map[]
    }

    /** `resetForm`. */
    method ResetForm()
      modifies this
      ensures Blank()
    {
      title, description, team, ceremonyType, date, time := "", "", "", "", "", "";
      videoFile, uploadProgress, isUploading, errors := None, 0, false, map[];
    }

    /** The `newErrors` object of `handleSubmit`, filled one check at a time. */
    method Validate() returns (newErrors: map<string, string>)
      ensures newErrors == PromptErrors(title, description, team, ceremonyType, date, time)
    {
      newErrors := map[];
      if title == "" {
        newErrors := newErrors["title" := "Title is required"];
      }
      if description == "" {
        newErrors := newErrors["description" := "Description is required"];
      }
      if team == "" {
        newErrors := newErrors["team" := "Team is required"];
      }
      if ceremonyType == "" {
        newErrors := newErrors["ceremonyType" := "Ceremony type is required"];
      }
      if date == "" {
        newErrors := newErrors["date" := "Date is required"];
      }
      if time == "" {
        newErrors := newErrors["time" := "Time is required"];
      }
    }

    /** `handleSubmit`: with errors they are shown and nothing else changes; otherwise the form
        is reset and the dialog closes (`closed`). */
    method HandleSubmit() returns (closed: bool)
      modifies this
      ensures var errs := PromptErrors(old(title), old(description), old(team), old(ceremonyType), old(date), old(time));
        if errs != map[] then
          && !closed && errors == errs
          && title == old(title) && description == old(description) && team == old(team)
          && ceremonyType == old(ceremonyType) && date == old(date) && time == old(time)
          && videoFile == old(videoFile) && uploadProgress == old(uploadProgress) && isUploading == old(isUploading)
        else closed && Blank()
    {
      var newErrors := Validate();
      if |newErrors.Keys| > 0 {
        errors := newErrors;
        return false;
      }
      ResetForm();
      closed := true;
    }

    /** `handleFileUpload`: the file is kept, the errors are cleared and the upload starts at 0. */
    method FileUpload(file: VideoFile)
      modifies this
      ensures videoFile == Some(file) && errors == map[] && isUploading && uploadProgress == 0
      ensures title == old(title) && description == old(description) && team == old(team)
      ensures ceremonyType == old(ceremonyType) && date == old(date) && time == old(time)
    {
      videoFile := Some(file);
      errors := map[];
      isUploading := true;
      uploadProgress := 0;
    }

    /** `handleFileChange` and `handleDrop`: the first file is taken when it is a video; any other
        file sets the video error and leaves the current file. */
    method ReceiveFiles(files: seq<VideoFile>)
      modifies this
      ensures files == [] ==> unchanged(this)
      ensures files != [] && IsVideo(files[0]) ==>
        videoFile == Some(files[0]) && errors == map[] && isUploading && uploadProgress == 0
      ensures files != [] && !IsVideo(files[0]) ==>
        errors == map["video" := VideoRequiredMessage] && videoFile == old(videoFile)
        && uploadProgress == old(uploadProgress) && isUploading == old(isUploading)
      ensures title == old(title) && description == old(description) && team == old(team)
      ensures ceremonyType == old(ceremonyType) && date == old(date) && time == old(time)
    {
      if |files| > 0 {
        var file := files[0];
        if IsVideo(file) {
          FileUpload(file);
        } else {
          errors := map["video" := VideoRequiredMessage];
        }
      }
    }

    /** One tick of the upload timer: progress takes its next value, and a tick that finds it at
        100 (or past it) stops the upload. */
    method Tick()
      modifies this
      ensures uploadProgress == Step(old(uploadProgress))
      ensures isUploading == (old(isUploading) && old(uploadProgress) < 100)
      ensures videoFile == old(videoFile) && errors == old(errors)
      ensures title == old(title) && description == old(description) && team == old(team)
      ensures ceremonyType == old(ceremonyType) && date == old(date) && time == old(time)
    {
      if uploadProgress >= 100 {
        isUploading := false;
        uploadProgress := 100;
      } else {
        uploadProgress := uploadProgress + 10;
      }
    }
  }

}
