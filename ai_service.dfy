/**
 * The mock AI service of `src/services/aiService.ts`: canned images, stories
 * and palettes keyed by category, with `animals` as the fallback. The clock
 * is the parameter `now` (milliseconds), and the artificial delays are gone.
 */
module AiService {
  import opened Wrappers
  import opened Strings
  import opened Types
  import Helpers

  const FallbackCategory := "animals"

  /** An original picture and its outline. */
  datatype ImageSet = ImageSet(original: string, outline: string)

  /** The canned images; only the three listed categories have an entry. */
  function MockImages(category: string): (r: Option<ImageSet>)
    ensures r.Some? <==> category in {"animals", "fantasy", "nature"}
  {
    match category
    case "animals" => Some(ImageSet(
      "https://via.placeholder.com/400x400/FFE5E5/FF6B9D?text=Happy+Cat",
      "https://via.placeholder.com/400x400/FFFFFF/000000?text=Cat+Outline"))
    case "fantasy" => Some(ImageSet(
      "https://via.placeholder.com/400x400/E5F4FF/4ECDC4?text=Magic+Dragon",
      "https://via.placeholder.com/400x400/FFFFFF/000000?text=Dragon+Outline"))
    case "nature" => Some(ImageSet(
      "https://via.placeholder.com/400x400/E5FFE5/4CAF50?text=Beautiful+Flower",
      "https://via.placeholder.com/400x400/FFFFFF/000000?text=Flower+Outline"))
    case _ => None
  }

  /** `mockImages[category] || mockImages.animals`. */
  function ImageSetFor(category: string): (r: ImageSet)
    ensures MockImages(category).Some? ==> r == MockImages(category).value
    ensures MockImages(category).None? ==> r == MockImages(FallbackCategory).value
  {
    MockImages(category).GetOr(MockImages(FallbackCategory).value)
  }

  /** The canned image for a prompt and a category, created at time `now`. */
  function GenerateColoringImage(prompt: string, category: string, now: nat): (r: ColoringImage)
    ensures r.title == (if prompt != "" then prompt else category + " Drawing")
    ensures r.category == category && r.tags == [category, "ai-generated"]
    ensures r.difficulty == Medium && r.isAI && r.createdAt == now
    ensures r.originalImageUrl == ImageSetFor(category).original
    ensures r.outlineImageUrl == ImageSetFor(category).outline
  {
    ColoringImage(
      id := "ai_" + NatToString(now),
      title := if prompt != "" then prompt else category + " Drawing",
      description := "A beautiful " + category + " drawing created by AI",
      originalImageUrl := ImageSetFor(category).original,
      outlineImageUrl := ImageSetFor(category).outline,
      category := category,
      difficulty := Medium,
      tags := [category, "ai-generated"],
      createdAt := now,
      isAI := true)
  }

  /**
   * An unknown category gets the animal pictures, but keeps its own name as
   * category and tag; a known one gets pictures no other category has.
   */
  lemma UnknownCategoryFallsBack(prompt: string, category: string, other: string, now: nat)
    ensures category !in {"animals", "fantasy", "nature"} ==>
      var r := GenerateColoringImage(prompt, category, now);
      var a := GenerateColoringImage(prompt, FallbackCategory, now);
      r.outlineImageUrl == a.outlineImageUrl && r.originalImageUrl == a.originalImageUrl
        && r.category == category && r.tags[0] == category
    ensures category in {"animals", "fantasy", "nature"} && other in {"animals", "fantasy", "nature"} && category != other ==>
      GenerateColoringImage(prompt, category, now).outlineImageUrl != GenerateColoringImage(prompt, other, now).outlineImageUrl
  {
  }

  /** The id embeds the creation time, so images made at different times get different ids. */
  lemma GeneratedIdsDiffer(p1: string, c1: string, t1: nat, p2: string, c2: string, t2: nat)
    requires t1 != t2
    ensures GenerateColoringImage(p1, c1, t1).id != GenerateColoringImage(p2, c2, t2).id
  {
    var a, b := NatToString(t1), NatToString(t2);
    if "ai_" + a == "ai_" + b {
      assert a == ("ai_" + a)[3..];
      NatToStringInjective(t1, t2);
    }
  }

  const AnimalsStoryContent := "Once upon a time, there was a magical cat with rainbow-colored fur. This special cat could make flowers bloom wherever it walked. One day, it discovered a hidden garden where all the flowers had lost their colors. The cat used its magical powers to bring the garden back to life, painting each flower with beautiful colors. All the animals in the forest were so happy to see their garden restored!"
  const FantasyStoryContent := "In a land far away, there lived a young dragon who was different from all the others. While other dragons were fierce and scary, this dragon loved to paint and create beautiful art. One day, the dragon decided to fly around the world and paint the sky with the most amazing colors. Everyone who saw the dragon's artwork was filled with joy and wonder."
  const NatureStoryContent := "Deep in the enchanted forest, there was a special garden where flowers could talk and dance. Each flower had its own personality and favorite color. They would have colorful parties every night, dancing under the moonlight. One day, a little butterfly joined their garden and brought even more colors and joy to their celebrations."

  datatype StoryTemplate = StoryTemplate(title: string, content: string, characters: seq<string>, theme: string)

  /** The canned stories; only the three listed themes have one. */
  function Stories(theme: string): (r: Option<StoryTemplate>)
    ensures r.Some? <==> theme in {"animals", "fantasy", "nature"}
  {
    match theme
    case "animals" => Some(StoryTemplate(
      "The Colorful Cat's Adventure",
      AnimalsStoryContent,
      ["Rainbow Cat", "Forest Animals", "Magic Flowers"],
      "Friendship and Magic"))
    case "fantasy" => Some(StoryTemplate(
      "The Dragon's Colorful Quest",
      FantasyStoryContent,
      ["Artistic Dragon", "Villagers", "Sky"],
      "Creativity and Acceptance"))
    case "nature" => Some(StoryTemplate(
      "The Garden's Secret",
      NatureStoryContent,
      ["Talking Flowers", "Butterfly", "Moon"],
      "Nature and Celebration"))
    case _ => None
  }

  /** `stories[theme] || stories.animals`. */
  function StoryFor(theme: string): (r: StoryTemplate)
    ensures Stories(theme).Some? ==> r == Stories(theme).value
    ensures Stories(theme).None? ==> r == Stories(FallbackCategory).value
  {
    Stories(theme).GetOr(Stories(FallbackCategory).value)
  }

  /**
   * The canned story for a theme, tied to `artworkId`. The colours are not
   * looked at, and the returned theme is the story's own, not the input.
   */
  function GenerateStory(artworkId: string, colors: seq<string>, theme: string, now: nat): (r: AIStory)
    ensures r.artworkId == artworkId && r.createdAt == now
    ensures r.title == StoryFor(theme).title && r.content == StoryFor(theme).content
    ensures r.characters == StoryFor(theme).characters && r.theme == StoryFor(theme).theme
  {
    var story := StoryFor(theme);
    AIStory(
      id := "story_" + NatToString(now),
      artworkId := artworkId,
      title := story.title,
      content := story.content,
      characters := story.characters,
      theme := story.theme,
      createdAt := now)
  }

  /** The story does not depend on the colours, and an unknown theme tells the animal story. */
  lemma StoryIgnoresColors(artworkId: string, c1: seq<string>, c2: seq<string>, theme: string, now: nat)
    ensures GenerateStory(artworkId, c1, theme, now) == GenerateStory(artworkId, c2, theme, now)
    ensures theme !in {"animals", "fantasy", "nature"} ==>
      GenerateStory(artworkId, c1, theme, now) == GenerateStory(artworkId, c1, FallbackCategory, now)
  {
  }

  const SvgDataUrlPrefix := "data:image/svg+xml;base64,"

  /**
   * The processed upload. The browser supplies `objectUrl` for the file and
   * `encodedSvg`, the base64 text of the fixed placeholder drawing.
   */
  function GenerateOutline(imageFile: Helpers.FileInfo, now: nat, objectUrl: string, encodedSvg: string): (r: UploadedImage)
    ensures r.status == Completed && r.error.None?
    ensures r.originalUrl == objectUrl
    ensures StartsWith(r.outlineUrl, SvgDataUrlPrefix) && r.outlineUrl[|SvgDataUrlPrefix|..] == encodedSvg
  {
    UploadedImage(
      id := "upload_" + NatToString(now),
      originalUrl := objectUrl,
      outlineUrl := SvgDataUrlPrefix + encodedSvg,
      status := Completed,
      error := None)
  }

  const PaletteCategories: seq<string> := ["animals", "fantasy", "nature"]

  function ColorPalette(category: string): (r: Option<seq<string>>)
    ensures r.Some? <==> category in PaletteCategories
    ensures r.Some? ==> |r.value| == 5
  {
    match category
    case "animals" => Some(["#FF6B9D", "#4ECDC4", "#FFE66D", "#95E1D3", "#F38181"])
    case "fantasy" => Some(["#A8E6CF", "#DCEDC8", "#FFD3B6", "#FFAAA5", "#FF8B94"])
    case "nature" => Some(["#4CAF50", "#8BC34A", "#CDDC39", "#FFEB3B", "#FF9800"])
    case _ => None
  }

  /**
   * One of the three palettes, whichever category the random index `pick`
   * lands on; the image id is not looked at.
   */
  function GetColorSuggestions(imageId: string, pick: nat): (r: seq<string>)
    requires pick < |PaletteCategories|
    ensures |r| == 5
    ensures exists c :: c in PaletteCategories && ColorPalette(c) == Some(r)
  {
    ColorPalette(PaletteCategories[pick]).value
  }
}
