/**
 * The client's game (client/src/App.jsx): the guess check and the component
 * state that `fetchTracks`, `checkGuess` and `nextTrack` update, with the
 * guards under which the rendered page offers each action.
 */
module Game {
  import opened Text
  import opened Catalog

  const CORRECT: string := "✅ Correct!"
  const TRY_AGAIN: string := "❌ Try again!"
  const LOADING: string := "Loading..."

  /**
   * The match of `checkGuess`: the lower-cased guess contains the lower-cased
   * track name or the lower-cased artist string. No trimming, and containment
   * runs one way only.
   */
  predicate GuessMatches(guess: string, t: Track)
    // containment runs one way: the guess is at least as long as what it names
    ensures GuessMatches(guess, t) ==> |t.name| <= |guess| || |t.artist| <= |guess|
    // an empty name or artist is contained in every guess
    ensures t.name == "" || t.artist == "" ==> GuessMatches(guess, t)
  {
    Includes(Lower(guess), Lower(t.name)) || Includes(Lower(guess), Lower(t.artist))
  }

  /** A guess is correct exactly when the name or the artist occurs in it, ignoring letter case. */
  lemma GuessMatchesIff(guess: string, t: Track)
    ensures GuessMatches(guess, t) <==>
      (exists i :: OccursAt(Lower(guess), Lower(t.name), i)) ||
      (exists i :: OccursAt(Lower(guess), Lower(t.artist), i))
  {
    assert GuessMatches(guess, t) == (Includes(Lower(guess), Lower(t.name)) || Includes(Lower(guess), Lower(t.artist)));
    IncludesIff(Lower(guess), Lower(t.name));
    IncludesIff(Lower(guess), Lower(t.artist));
  }

  /** Letter case plays no part, neither in the guess nor in the track. */
  lemma GuessCaseIgnored(guess: string, t: Track)
    ensures GuessMatches(Lower(guess), t) == GuessMatches(guess, t)
    ensures GuessMatches(guess, Track(Lower(t.name), Lower(t.artist), t.previewUrl)) == GuessMatches(guess, t)
  {
    LowerIdempotent(guess);
    LowerIdempotent(t.name);
    LowerIdempotent(t.artist);
  }

  /** Typing the name, or the artist, in any letter case is correct. */
  lemma NameOrArtistMatches(guess: string, t: Track)
    requires Lower(guess) == Lower(t.name) || Lower(guess) == Lower(t.artist)
    ensures GuessMatches(guess, t)
  {
    assert Includes(Lower(guess), Lower(guess));
  }

  /** "Yellow" by "Coldplay": the artist typed in lower case is correct. */
  lemma YellowArtistExample(guess: string, t: Track)
    requires guess == "coldplay" && t.name == "Yellow" && t.artist == "Coldplay"
    ensures GuessMatches(guess, t)
  {
    assert Lower(guess) == Lower(t.artist) by {
      assert forall i :: 0 <= i < |guess| ==> LowerChar(guess[i]) == LowerChar(t.artist[i]);
    }
    NameOrArtistMatches(guess, t);
  }

  /** "Yellow" by "Coldplay": another word of the same length is wrong. */
  lemma YellowWrongWordExample(guess: string, t: Track)
    requires guess == "purple" && t.name == "Yellow" && t.artist == "Coldplay"
    ensures !GuessMatches(guess, t)
  {
    var g, n := Lower(guess), Lower(t.name);
    assert g[..|n|] != n by {
      assert g[0] == LowerChar('p') && n[0] == LowerChar('Y');
    }
    assert !Includes(g[1..], n);
    assert !Includes(g, n);
  }

  /** "Yellow" by "Coldplay": a prefix of the name is wrong, containment runs one way. */
  lemma YellowPrefixExample(url: string)
    ensures !GuessMatches("yell", Track("Yellow", "Coldplay", url))
  {
  }

  /** What the server's answer parsed to: an array of tracks, another JSON value (the `{error}` object), or a rejected fetch or parse. */
  datatype FetchReply = TrackArray(tracks: seq<Track>) | OtherJson | FetchFailed

  /** The component state of `App`. */
  class Session {
    var playlistUrl: string
    var tracks: seq<Track>
    var current: int
    var guess: string
    var message: string
    var showAnswer: bool
    var gameStarted: bool

    /**
     * Before the game starts nothing has been played; once it has, `current`
     * never passes the end of the list; the answer is shown only for an
     * existing track whose current guess matches it.
     */
    ghost predicate Valid()
      reads this
    {
      0 <= current &&
      (!gameStarted ==> current == 0 && tracks == [] && guess == "" && !showAnswer) &&
      (gameStarted ==> current <= |tracks|) &&
      (showAnswer ==> current < |tracks| && message == CORRECT && GuessMatches(guess, tracks[current]))
    }

    /** `if (!track) return <div>Game over!</div>`: started, and `tracks[current]` is undefined. */
    predicate GameOver()
      reads this
    {
      gameStarted && !(0 <= current < |tracks|)
    }

    /** The track page is rendered: started, and `tracks[current]` exists. */
    predicate OnTrack()
      reads this
    {
      gameStarted && 0 <= current < |tracks|
    }

    /** The Submit button (and the enabled guess input) is on the page. */
    predicate SubmitOffered()
      reads this
    {
      OnTrack() && !showAnswer
    }

    /** The Next button is on the page. */
    predicate NextOffered()
      reads this
    {
      OnTrack() && showAnswer
    }

    /** The initial `useState` values. */
    constructor ()
      ensures Valid() && !gameStarted
      ensures playlistUrl == "" && tracks == [] && current == 0 && guess == "" && message == "" && !showAnswer
    {
      playlistUrl, tracks, current, guess, message, showAnswer, gameStarted := "", [], 0, "", "", false, false;
    }

    /** The playlist input's `onChange`, on the start page. */
    method EditPlaylistUrl(s: string)
      requires Valid() && !gameStarted
      modifies this
      ensures Valid()
      ensures playlistUrl == s
      ensures tracks == old(tracks) && current == old(current) && guess == old(guess)
      ensures message == old(message) && showAnswer == old(showAnswer) && gameStarted == old(gameStarted)
    {
      playlistUrl := s;
    }

    /** The guess input's `onChange`; the input is disabled while the answer is shown. */
    method EditGuess(s: string)
      requires Valid() && SubmitOffered()
      modifies this
      ensures Valid()
      ensures guess == s
      ensures playlistUrl == old(playlistUrl) && tracks == old(tracks) && current == old(current)
      ensures message == old(message) && showAnswer == old(showAnswer) && gameStarted == old(gameStarted)
    {
      guess := s;
    }

    /**
     * `fetchTracks`, run from the Start Game button: reset the game, then
     * store the parsed answer and start. A non-array answer leaves no track to
     * play; a failed fetch leaves the reset state with "Loading...".
     */
    method FetchTracks(reply: FetchReply)
      requires Valid() && !gameStarted
      modifies this
      ensures Valid()
      ensures playlistUrl == old(playlistUrl) && current == 0 && guess == "" && !showAnswer
      ensures reply.TrackArray? ==> tracks == reply.tracks && gameStarted && message == ""
      ensures reply.OtherJson? ==> tracks == [] && gameStarted && message == "" && GameOver()
      ensures reply.FetchFailed? ==> tracks == [] && !gameStarted && message == LOADING
      ensures gameStarted ==> (GameOver() <==> tracks == [])
    {
      message := LOADING;
      gameStarted := false;
      showAnswer := false;
      current := 0;
      tracks := [];
      guess := "";
      match reply {
        case FetchFailed =>
          return;
        case OtherJson =>
          tracks := [];
        case TrackArray(ts) =>
          tracks := ts;
      }
      gameStarted := true;
      message := "";
    }

    /** `checkGuess`, run from the Submit button. */
    method CheckGuess()
      requires Valid() && SubmitOffered()
      modifies this
      ensures Valid()
      ensures playlistUrl == old(playlistUrl) && tracks == old(tracks) && current == old(current)
      ensures guess == old(guess) && gameStarted == old(gameStarted)
      ensures GuessMatches(old(guess), old(tracks)[old(current)]) ==> showAnswer && message == CORRECT
      ensures !GuessMatches(old(guess), old(tracks)[old(current)]) ==> showAnswer == old(showAnswer) && message == TRY_AGAIN
      ensures OnTrack()
    {
      var track := tracks[current];
      var correct := GuessMatches(guess, track);
      if correct {
        message := CORRECT;
        showAnswer := true;
      } else {
        message := TRY_AGAIN;
      }
    }

    /** `nextTrack`, run from the Next button. */
    method NextTrack()
      requires Valid() && NextOffered()
      modifies this
      ensures Valid()
      ensures current == old(current) + 1 && guess == "" && !showAnswer && message == ""
      ensures playlistUrl == old(playlistUrl) && tracks == old(tracks) && gameStarted == old(gameStarted)
      // the player only moves on from a track they named
      ensures GuessMatches(old(guess), old(tracks)[old(current)])
      ensures GameOver() <==> current == |tracks|
    {
      current := current + 1;
      guess := "";
      showAnswer := false;
      message := "";
    }
  }
}
