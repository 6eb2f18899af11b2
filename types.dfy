/** Shared enumerations, records and error classes of the recorder / transcriber
    (src/shared/types.ts). Times are integer milliseconds since the epoch. */
module Types {

  datatype Option<+T> = None | Some(value: T)

  /** The six task states, named as the source's enum names them. */
  datatype TaskState = PENDING | RECORDING | SAVED | IN_TRANSCRIB | COMPLETED | FAILED
  {
    /** The enum's string value, used in error messages. */
    function Name(): string
    {
      match this
      case PENDING => "PENDING"
      case RECORDING => "RECORDING"
      case SAVED => "SAVED"
      case IN_TRANSCRIB => "IN_TRANSCRIB"
      case COMPLETED => "COMPLETED"
      case FAILED => "FAILED"
    }
  }

  const AllTaskStates: seq<TaskState> := [PENDING, RECORDING, SAVED, IN_TRANSCRIB, COMPLETED, FAILED]

  datatype AudioSource = RECORD | IMPORT

  datatype ExportFormat = TXT | JSON | SRT | VTT
  {
    function Name(): string
    {
      match this
      case TXT => "TXT"
      case JSON => "JSON"
      case SRT => "SRT"
      case VTT => "VTT"
    }
  }

  const AllExportFormats: seq<ExportFormat> := [TXT, JSON, SRT, VTT]

  /** Reads an export format from the string a caller passes in; the source's
      switch compares against exactly these four values. */
  function ParseExportFormat(s: string): (r: Option<ExportFormat>)
    ensures r.Some? ==> r.value.Name() == s
    ensures r.None? <==> s !in {"TXT", "JSON", "SRT", "VTT"}
  {
    if s == "TXT" then Some(TXT)
    else if s == "JSON" then Some(JSON)
    else if s == "SRT" then Some(SRT)
    else if s == "VTT" then Some(VTT)
    else None
  }

  /** Thrown errors. `PlainError` is a bare `Error`; the others are the
      `AppError` subclasses, each with its code and category. */
  datatype Failure =
    | PlainError(message: string)
    | DatabaseError(message: string)
    | FileError(message: string)
    | ApiError(message: string)
    | RecordingError(message: string)
  {
    function Code(): Option<string>
    {
      match this
      case PlainError(_) => None
      case DatabaseError(_) => Some("DATABASE_ERROR")
      case FileError(_) => Some("FILE_ERROR")
      case ApiError(_) => Some("API_ERROR")
      case RecordingError(_) => Some("RECORDING_ERROR")
    }

    function Category(): Option<string>
    {
      match this
      case PlainError(_) => None
      case DatabaseError(_) => Some("DATABASE")
      case FileError(_) => Some("FILE")
      case ApiError(_) => Some("API")
      case RecordingError(_) => Some("RECORDING")
    }
  }

  /** Outcome of an operation that may throw. */
  datatype Result<+T> = Ok(value: T) | Err(error: Failure)

  /** The `status` strings of a TranscriptionStatus entry. */
  datatype StatusKind = Queued | Transcribing | Completed | Failed | Cancelled | NotFound
  {
    function Label(): string
    {
      match this
      case Queued => "queued"
      case Transcribing => "transcribing"
      case Completed => "completed"
      case Failed => "failed"
      case Cancelled => "cancelled"
      case NotFound => "not_found"
    }
  }

  datatype TranscriptionStatus = TranscriptionStatus(
    taskId: string,
    status: StatusKind,
    progress: int,
    error: Option<string>,
    startTime: int,
    endTime: Option<int>)

  /** One subtitle segment reported by a backend; times in milliseconds. */
  datatype Segment = Segment(start: nat, end: nat, text: string)

  /** The fields of a backend's raw response that the core reads. A field
      that is absent, or not of the expected type, is None. */
  datatype ApiResponse = ApiResponse(
    text: Option<string>,
    language: Option<string>,
    confidence: Option<int>,
    segments: Option<seq<Segment>>,
    processingTime: Option<int>)

  datatype TranscriptionResult = TranscriptionResult(
    resultId: string,
    taskId: string,
    format: string,
    model: string,
    language: Option<string>,
    confidence: Option<int>,
    processingTime: int,
    wordCount: nat,
    apiResponse: Option<ApiResponse>,
    createdAt: int,
    updatedAt: int)

  /** An audio file record; the optional media fields are None when unknown. */
  datatype AudioFile = AudioFile(
    fileId: string,
    taskId: string,
    fileName: string,
    filePath: string,
    fileSize: nat,
    duration: Option<int>,
    format: string,
    sampleRate: Option<int>,
    channels: Option<int>,
    bitRate: Option<int>,
    createdAt: int,
    updatedAt: int)

  datatype ValidationResult = ValidationResult(isValid: bool, errors: seq<string>)

  /** Builds the result the validators return: valid exactly when no error was reported. */
  function Validation(errors: seq<string>): (r: ValidationResult)
    ensures r.isValid <==> r.errors == []
    ensures r.errors == errors
  {
    ValidationResult(|errors| == 0, errors)
  }

  /** TaskState has exactly six members, with six distinct names. */
  lemma TaskStatesAreSix()
    ensures forall s: TaskState :: s in AllTaskStates
    ensures |AllTaskStates| == 6
    ensures forall i, j :: 0 <= i < j < 6 ==> AllTaskStates[i].Name() != AllTaskStates[j].Name()
  {
    forall s: TaskState ensures s in AllTaskStates {
      match s
      case PENDING => assert AllTaskStates[0] == s;
      case RECORDING => assert AllTaskStates[1] == s;
      case SAVED => assert AllTaskStates[2] == s;
      case IN_TRANSCRIB => assert AllTaskStates[3] == s;
      case COMPLETED => assert AllTaskStates[4] == s;
      case FAILED => assert AllTaskStates[5] == s;
    }
  }

  /** ExportFormat has exactly four members, and parsing a member's name gives it back. */
  lemma ExportFormatsRoundTrip()
    ensures forall f: ExportFormat :: f in AllExportFormats && ParseExportFormat(f.Name()) == Some(f)
    ensures |AllExportFormats| == 4
  {
    forall f: ExportFormat ensures f in AllExportFormats && ParseExportFormat(f.Name()) == Some(f) {
      match f
      case TXT => assert AllExportFormats[0] == f;
      case JSON => assert AllExportFormats[1] == f;
      case SRT => assert AllExportFormats[2] == f;
      case VTT => assert AllExportFormats[3] == f;
    }
  }

  /** Each AppError subclass carries its own code and category. */
  lemma ErrorCodesAndCategories(m: string)
    ensures DatabaseError(m).Code() == Some("DATABASE_ERROR") && DatabaseError(m).Category() == Some("DATABASE")
    ensures FileError(m).Code() == Some("FILE_ERROR") && FileError(m).Category() == Some("FILE")
    ensures ApiError(m).Code() == Some("API_ERROR") && ApiError(m).Category() == Some("API")
    ensures PlainError(m).Code() == None
  {
  }
}
