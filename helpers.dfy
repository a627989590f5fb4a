/**
 * The pure helpers of `src/utils/helpers.ts`: upload validation and the
 * lookup tables for difficulty colours, category icons and age messages.
 */
module Helpers {
  import opened Wrappers
  import opened Strings

  /** What the validation reads of a browser `File`: its MIME type and its size in bytes. */
  datatype FileInfo = FileInfo(mimeType: string, size: nat)

  /** `{ valid: boolean; error?: string }`. */
  datatype ValidationResult = ValidationResult(valid: bool, error: Option<string>)

  const ImageMimePrefix := "image/"
  /** 10 * 1024 * 1024 bytes. */
  const MaxImageBytes := 10 * 1024 * 1024
  const NotAnImageError := "Please select an image file!"
  const TooLargeError := "File is too large! Please select an image smaller than 10MB."

  predicate IsImageType(f: FileInfo)
  {
    StartsWith(f.mimeType, ImageMimePrefix)
  }

  /** The type check, then the size check; the first that fails names the error. */
  function ValidateImageFile(f: FileInfo): (r: ValidationResult)
    ensures r.valid <==> IsImageType(f) && f.size <= MaxImageBytes
    ensures r.valid <==> r.error.None?
    ensures !IsImageType(f) ==> r.error == Some(NotAnImageError)
    ensures IsImageType(f) && f.size > MaxImageBytes ==> r.error == Some(TooLargeError)
  {
    if !StartsWith(f.mimeType, ImageMimePrefix) then
      ValidationResult(false, Some(NotAnImageError))
    else if f.size > 10 * 1024 * 1024 then
      ValidationResult(false, Some(TooLargeError))
    else
      ValidationResult(true, None)
  }

  /** A file that is neither an image nor small enough reports the type error, not the size error. */
  lemma TypeCheckedBeforeSize(f: FileInfo)
    requires !IsImageType(f) && f.size > MaxImageBytes
    ensures ValidateImageFile(f).error == Some(NotAnImageError)
  {
  }

  /** The size bound is inclusive: exactly 10 MiB passes, one byte more fails. */
  lemma SizeBoundary(mimeType: string)
    requires StartsWith(mimeType, ImageMimePrefix)
    ensures ValidateImageFile(FileInfo(mimeType, 10485760)).valid
    ensures ValidateImageFile(FileInfo(mimeType, 10485761)).error == Some(TooLargeError)
  {
  }

  const UnknownDifficultyColor := "#9E9E9E"

  function GetDifficultyColor(difficulty: string): (r: string)
    ensures difficulty == "easy" ==> r == "#4CAF50"
    ensures difficulty == "medium" ==> r == "#FF9800"
    ensures difficulty == "hard" ==> r == "#F44336"
    ensures r == UnknownDifficultyColor <==> difficulty !in {"easy", "medium", "hard"}
  {
    match difficulty
    case "easy" => "#4CAF50"
    case "medium" => "#FF9800"
    case "hard" => "#F44336"
    case _ => "#9E9E9E"
  }

  /** The three difficulties get three different colours. */
  lemma DifficultyColorsDistinct(a: string, b: string)
    requires a in {"easy", "medium", "hard"} && b in {"easy", "medium", "hard"}
    requires GetDifficultyColor(a) == GetDifficultyColor(b)
    ensures a == b
  {
  }

  const DefaultCategoryIcon := "\U{1F3A8}"

  /**
   * The five named categories each have an icon; every other string gets the
   * palette. These are the intended emoji; `CategoryIconsAsWritten` keeps the
   * file's own, mis-decoded literals.
   */
  function GetCategoryIcon(category: string): (r: string)
    ensures category == "animals" ==> r == "\U{1F43E}"
    ensures category == "fantasy" ==> r == "\U{1F409}"
    ensures category == "nature" ==> r == "\U{1F338}"
    ensures category == "vehicles" ==> r == "\U{1F697}"
    ensures category == "food" ==> r == "\U{1F355}"
    ensures r == DefaultCategoryIcon <==> category !in {"animals", "fantasy", "nature", "vehicles", "food"}
  {
    match category
    case "animals" => "\U{1F43E}"
    case "fantasy" => "\U{1F409}"
    case "nature" => "\U{1F338}"
    case "vehicles" => "\U{1F697}"
    case "food" => "\U{1F355}"
    case _ => "\U{1F3A8}"
  }

  const YoungestMessage := "Great job, little artist! \U{1F31F}"
  const MiddleMessage := "Amazing work, creative friend! \U{1F3A8}"
  const OldestMessage := "Fantastic artwork! Keep creating! \U{2728}"

  /**
   * Three age bands: below 6, from 6 up to (not including) 10, and 10 or
   * more. The messages end in the intended emoji; the `...AsWritten`
   * constants below keep the file's mis-decoded ones.
   */
  function GetAgeAppropriateMessage(age: real): (r: string)
    ensures r == YoungestMessage <==> age < 6.0
    ensures r == MiddleMessage <==> 6.0 <= age < 10.0
    ensures r == OldestMessage <==> age >= 10.0
  {
    if age < 6.0 then YoungestMessage
    else if age < 10.0 then MiddleMessage
    else OldestMessage
  }

  /**
   * The icon table as the file spells it: each emoji's UTF-8 bytes were read
   * as Windows-1252 text and saved again, so every icon is three or four
   * Latin characters (the bytes 0x8D and 0x90, which that code page leaves
   * undefined, are lost). The last pair is the `default` branch.
   */
  const CategoryIconsAsWritten: seq<(string, string)> := [
    ("animals", "\U{F0}\U{178}\U{BE}"),
    ("fantasy", "\U{F0}\U{178}\U{2030}"),
    ("nature", "\U{F0}\U{178}\U{152}\U{B8}"),
    ("vehicles", "\U{F0}\U{178}\U{161}\U{2014}"),
    ("food", "\U{F0}\U{178}\U{2022}"),
    ("", "\U{F0}\U{178}\U{17D}\U{A8}")
  ]

  /**
   * Every icon as written is the mis-decoded text, several characters long,
   * and differs from the single emoji it stands for: "animals" shows the
   * three characters U+00F0 U+0178 U+00BE instead of the paw prints.
   */
  lemma CategoryIconsAsWrittenMisencoded()
    ensures |CategoryIconsAsWritten| == 6
    ensures forall i :: 0 <= i < |CategoryIconsAsWritten| ==>
      && |CategoryIconsAsWritten[i].1| >= 3
      && StartsWith(CategoryIconsAsWritten[i].1, "\U{F0}\U{178}")
      && CategoryIconsAsWritten[i].1 != GetCategoryIcon(CategoryIconsAsWritten[i].0)
  {
  }

  /** Corrected: each category shows one symbol, and different icons mean different categories (or the default). */
  lemma CategoryIconsAreSingleSymbols(a: string, b: string)
    ensures |GetCategoryIcon(a)| == 1
    ensures a in {"animals", "fantasy", "nature", "vehicles", "food"} && GetCategoryIcon(a) == GetCategoryIcon(b) ==> a == b
  {
  }

  /** The three messages as the file spells them, with the same mis-decoded emoji. */
  const YoungestMessageAsWritten := "Great job, little artist! \U{F0}\U{178}\U{152}\U{178}"
  const MiddleMessageAsWritten := "Amazing work, creative friend! \U{F0}\U{178}\U{17D}\U{A8}"
  const OldestMessageAsWritten := "Fantastic artwork! Keep creating! \U{E2}\U{153}\U{A8}"

  /**
   * Each message as written has the intended sentence followed by the
   * mis-decoded text (three or four characters) in place of its emoji.
   */
  lemma AgeMessagesAsWrittenMisencoded()
    ensures YoungestMessageAsWritten == YoungestMessage[..|YoungestMessage| - 1] + "\U{F0}\U{178}\U{152}\U{178}"
    ensures MiddleMessageAsWritten == MiddleMessage[..|MiddleMessage| - 1] + "\U{F0}\U{178}\U{17D}\U{A8}"
    ensures OldestMessageAsWritten == OldestMessage[..|OldestMessage| - 1] + "\U{E2}\U{153}\U{A8}"
    ensures YoungestMessageAsWritten != YoungestMessage && MiddleMessageAsWritten != MiddleMessage
    ensures OldestMessageAsWritten != OldestMessage
  {
  }

  /** Corrected: every message is a sentence ending in "! " and one emoji, and the three bands end in different emoji. */
  lemma AgeMessagesEndInOneEmoji(age: real)
    ensures var r := GetAgeAppropriateMessage(age);
      && |r| >= 3 && r[|r| - 3..|r| - 1] == "! "
      && r[|r| - 1] == (if age < 6.0 then '\U{1F31F}' else if age < 10.0 then '\U{1F3A8}' else '\U{2728}')
  {
  }
}
