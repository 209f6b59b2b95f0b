/**
 * The two label tables of app.py that turn a classifier's output label into
 * one of the moods the recommender understands. Both lookups are total:
 * a label missing from a table yields "happy".
 */
module EmotionLabels {

  /** Every mood either table can produce. */
  const Moods: set<string> := {"happy", "sad", "angry", "romantic", "anxious", "excited", "neutral"}

  /** `EMOTION_MAPPING`: text-classifier tag to mood. */
  const TextMapping: map<string, string> := map[
    "joy" := "happy",
    "sadness" := "sad",
    "anger" := "angry",
    "love" := "romantic",
    "fear" := "anxious",
    "surprise" := "excited",
    "neutral" := "neutral"
  ]

  /** The table local to `predict_emotion_from_face`: face-detector tag to mood. */
  const FaceMapping: map<string, string> := map[
    "happy" := "happy",
    "sad" := "sad",
    "neutral" := "neutral",
    "angry" := "angry",
    "surprise" := "excited",
    "fear" := "anxious",
    "disgust" := "angry"
  ]

  /** `EMOTION_MAPPING.get(tag, 'happy')`. */
  function TextMood(tag: string): (mood: string)
    ensures mood in Moods
    ensures tag !in TextMapping ==> mood == "happy"
    ensures mood == "romantic" <==> tag == "love"
  {
    if tag in TextMapping then TextMapping[tag] else "happy"
  }

  /** `emotion_mapping.get(dominant_emotion, 'happy')`; the face table never yields "romantic". */
  function FaceMood(tag: string): (mood: string)
    ensures mood in Moods - {"romantic"}
    ensures tag !in FaceMapping ==> mood == "happy"
    ensures tag == "disgust" ==> mood == "angry"
  {
    if tag in FaceMapping then FaceMapping[tag] else "happy"
  }

  /** Only "angry" is reached from two face labels; every other mood has a single face label. */
  lemma FaceMoodPreimages(a: string, b: string)
    requires a in FaceMapping && b in FaceMapping && a != b
    requires FaceMood(a) == FaceMood(b)
    ensures {a, b} == {"angry", "disgust"}
  {
  }
}
