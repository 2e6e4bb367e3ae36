/** Sound effects attached to catalog entries, looked up by a word their key
    contains, and the JavaScript values such a lookup can produce. */
module SoundEffects {
  import opened Wrappers
  import opened Catalog

  datatype SoundEffect = SoundEffect(key: string, volume: real, loop: bool)

  /** `w` occurs in `s` starting at index `i`. */
  predicate OccursAt(s: string, w: string, i: int)
  {
    0 <= i && i + |w| <= |s| && s[i..i + |w|] == w
  }

  /** `String.prototype.includes`: `w` occurs in `s` at some position. */
  predicate Includes(s: string, w: string)
  {
    exists i | 0 <= i <= |s| - |w| :: OccursAt(s, w, i)
  }

  /** The key test `obj => obj.key.includes(word)`. */
  function KeyIncludes(word: string): SoundEffect -> bool
  {
    (e: SoundEffect) => Includes(e.key, word)
  }

  /** `soundEffects.find(obj => obj.key.includes(word))`, as an option. */
  function FindSound(effects: seq<SoundEffect>, word: string): (r: Option<SoundEffect>)
    ensures r.None? <==> forall e :: e in effects ==> !Includes(e.key, word)
    ensures r.Some? ==> r.value in effects && Includes(r.value.key, word)
  {
    Find(effects, KeyIncludes(word), true)
  }

  /** A JavaScript reference: `undefined`, `null` or an object. */
  datatype JsValue<T> = Undefined | Null | Object(value: T)

  /** What `Array.prototype.find` evaluates to: the element, or `undefined`
      on a miss, never `null`. */
  function FoundValue<T>(found: Option<T>): (v: JsValue<T>)
    ensures v.Null? == false
    ensures found.None? <==> v.Undefined?
  {
    match found
    case None => Undefined
    case Some(x) => Object(x)
  }

  /** The TypeError thrown by reading a property of `undefined` or `null`. */
  datatype TypeError = TypeError

  /** `if (effect !== null) sound.play(effect.key, ...)` as written: the key
      played, no sound, or the TypeError of reading `.key` of `undefined`. */
  function NullGuardedKey(effect: JsValue<SoundEffect>): Result<Option<string>, TypeError>
  {
    if !effect.Null? then
      (if effect.Object? then Ok(Some(effect.value.key)) else Err(TypeError))
    else Ok(None)
  }

  /** `sound.play(effect.key, ...)` with no guard at all. */
  function UnguardedKey(effect: JsValue<SoundEffect>): Result<string, TypeError>
  {
    if effect.Object? then Ok(effect.value.key) else Err(TypeError)
  }

  /** The `!== null` guard cannot stop a missing sound: whenever no effect's
      key contains the word, the guarded play still throws. */
  lemma NullGuardLetsMissThrough(effects: seq<SoundEffect>, word: string)
    requires forall e :: e in effects ==> !Includes(e.key, word)
    ensures NullGuardedKey(FoundValue(FindSound(effects, word))) == Err(TypeError)
  {
  }

  /** A concrete case: an enemy whose only sound is keyed "hit", destroyed. */
  lemma NullGuardThrowsWithoutDeathSound()
    ensures NullGuardedKey(FoundValue(FindSound([SoundEffect("hit", 1.0, false)], "death"))).Err?
  {
    var effects := [SoundEffect("hit", 1.0, false)];
    assert !Includes("hit", "death");
    NullGuardLetsMissThrough(effects, "death");
  }

  /** The guard the code means, `if (effect)`: play the found sound, else
      play nothing, never throw. */
  function SoundToPlay(effect: Option<SoundEffect>): (k: Option<string>)
    ensures k.Some? <==> effect.Some?
    ensures k.Some? ==> k.value == effect.value.key
  {
    match effect
    case None => None
    case Some(e) => Some(e.key)
  }

  /** With the intended guard a sound plays exactly when some effect's key
      contains the word, and the one played does contain it. */
  lemma GuardedSoundPlaysIffPresent(effects: seq<SoundEffect>, word: string)
    ensures SoundToPlay(FindSound(effects, word)).Some? <==> exists e :: e in effects && Includes(e.key, word)
    ensures SoundToPlay(FindSound(effects, word)).Some? ==> Includes(SoundToPlay(FindSound(effects, word)).value, word)
  {
  }

  /** The guard as written and the intended one agree whenever the lookup
      succeeds; they differ only on a miss. */
  lemma NullGuardAgreesOnHit(effects: seq<SoundEffect>, word: string)
    requires exists e :: e in effects && Includes(e.key, word)
    ensures NullGuardedKey(FoundValue(FindSound(effects, word))) == Ok(SoundToPlay(FindSound(effects, word)))
  {
  }
}
