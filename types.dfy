/**
 * The record shapes shared by the pages and the mock service
 * (`src/types/index.ts`). Dates are millisecond timestamps.
 */
module Types {
  import opened Wrappers

  datatype Difficulty = Easy | Medium | Hard

  /** The string a difficulty is stored as ('easy' | 'medium' | 'hard'). */
  function DifficultyName(d: Difficulty): (s: string)
    ensures s in {"easy", "medium", "hard"}
  {
    match d
    case Easy => "easy"
    case Medium => "medium"
    case Hard => "hard"
  }

  datatype ColoringImage = ColoringImage(
    id: string,
    title: string,
    description: string,
    originalImageUrl: string,
    outlineImageUrl: string,
    category: string,
    difficulty: Difficulty,
    tags: seq<string>,
    createdAt: int,
    isAI: bool)

  datatype UserArtwork = UserArtwork(
    id: string,
    coloringImageId: string,
    coloredImageUrl: string,
    title: string,
    description: string,
    colors: seq<string>,
    createdAt: int,
    isPublic: bool)

  datatype AIStory = AIStory(
    id: string,
    artworkId: string,
    title: string,
    content: string,
    characters: seq<string>,
    theme: string,
    createdAt: int)

  datatype UploadStatus = Processing | Completed | Failed

  /** The string a status is stored as ('processing' | 'completed' | 'failed'). */
  function StatusName(s: UploadStatus): (r: string)
    ensures r in {"processing", "completed", "failed"}
  {
    match s
    case Processing => "processing"
    case Completed => "completed"
    case Failed => "failed"
  }

  datatype UploadedImage = UploadedImage(
    id: string,
    originalUrl: string,
    outlineUrl: string,
    status: UploadStatus,
    error: Option<string>)
}
