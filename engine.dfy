/**
 * The top-level mode machine of the game: the menu, a game in progress,
 * the pause screen and the game-over screen, switched by key presses.
 */
module Engine {

  /** `STATE_MENU`, `STATE_PLAYING`, `STATE_PAUSED`, `STATE_GAME_OVER`. */
  datatype Mode = Menu | Playing | Paused | GameOver

  /**
   * Decoded events: the space bar (which is also arcade button 1), the
   * '2' key, the 'P' key, and everything else (other keys and non-key
   * events alike).
   */
  datatype Key = Space | Two | P | Other

  /** The engine's game variables; `hasScene` says whether an elevator scene exists. */
  datatype EngineState = EngineState(mode: Mode, playerCount: int, score: int, highScore: int, hasScene: bool)

  /** `__init__`: the menu, one player, no scores, no scene yet. */
  const Initial: EngineState := EngineState(Menu, 1, 0, 0, false)

  /** `_start_game`: a fresh scene for the given number of players, score reset. */
  function StartedGame(e: EngineState, players: int): EngineState {
    e.(playerCount := players, mode := Playing, hasScene := true, score := 0)
  }

  /**
   * What one key does inside the event loop of the handler chosen for
   * mode `m` at the start of the frame. The loop keeps that handler even
   * after a key has switched the mode.
   */
  function Handle(e: EngineState, k: Key, m: Mode): EngineState {
    match m
    case Menu =>
      if k == Space then StartedGame(e, 1) else if k == Two then StartedGame(e, 2) else e
    case Playing => if k == P then e.(mode := Paused) else e
    case Paused => if k == P then e.(mode := Playing) else e
    case GameOver => if k == Space then e.(mode := Menu) else e
  }

  /** The event loop of the handler for mode `m`, over the keys in order. */
  function Loop(e: EngineState, keys: seq<Key>, m: Mode): EngineState
    decreases |keys|
  {
    if keys == [] then e else Handle(Loop(e, keys[..|keys| - 1], m), keys[|keys| - 1], m)
  }

  /** `update`: dispatch on the mode; a game in progress reacts only once it has a scene. */
  function Step(e: EngineState, keys: seq<Key>): EngineState {
    match e.mode
    case Playing => if e.hasScene then Loop(e, keys, Playing) else e
    case _ => Loop(e, keys, e.mode)
  }

  /** `_draw_game_over`: the high score catches up with the score. */
  function GameOverDrawn(e: EngineState): (r: EngineState)
    ensures r.highScore >= e.highScore && r.highScore >= e.score
    ensures r.highScore == e.highScore || r.highScore == e.score
    ensures r.(highScore := e.highScore) == e
  {
    if e.score > e.highScore then e.(highScore := e.score) else e
  }

  /** No handler ever selects the game-over mode. */
  lemma {:induction false} LoopNeverEntersGameOver(e: EngineState, keys: seq<Key>, m: Mode)
    requires e.mode != GameOver
    ensures Loop(e, keys, m).mode != GameOver
    decreases |keys|
  {
    if keys != [] {
      LoopNeverEntersGameOver(e, keys[..|keys| - 1], m);
    }
  }

  /** `update` never moves the engine into the game-over mode. */
  lemma StepNeverEntersGameOver(e: EngineState, keys: seq<Key>)
    requires e.mode != GameOver
    ensures Step(e, keys).mode != GameOver
  {
    LoopNeverEntersGameOver(e, keys, e.mode);
  }

  /**
   * The pause, resume and back-to-menu loops: the mode becomes the loop's
   * target exactly when the loop's key was pressed, and stays otherwise.
   */
  lemma {:induction false} LoopSwitchesOnKey(e: EngineState, keys: seq<Key>, m: Mode, key: Key, target: Mode)
    requires (m, key, target) in {(Playing, P, Paused), (Paused, P, Playing), (GameOver, Space, Menu)}
    ensures Loop(e, keys, m) == if key in keys then e.(mode := target) else e
    decreases |keys|
  {
    if keys != [] {
      var init := keys[..|keys| - 1];
      LoopSwitchesOnKey(e, init, m, key, target);
      assert keys == init + [keys[|keys| - 1]];
      assert key in keys <==> key in init || keys[|keys| - 1] == key;
    }
  }

  /** In a game with a scene, 'P' pauses; any other keys leave the game running. */
  lemma PlayingPausesOnP(e: EngineState, keys: seq<Key>)
    requires e.mode == Playing
    ensures Step(e, keys) == if e.hasScene && P in keys then e.(mode := Paused) else e
  {
    LoopSwitchesOnKey(e, keys, Playing, P, Paused);
  }

  /** 'P' resumes a paused game, and no other key leaves the pause screen. */
  lemma PausedResumesOnlyOnP(e: EngineState, keys: seq<Key>)
    requires e.mode == Paused
    ensures Step(e, keys) == if P in keys then e.(mode := Playing) else e
  {
    LoopSwitchesOnKey(e, keys, Paused, P, Playing);
  }

  /** Space on the game-over screen returns to the menu; nothing else changes. */
  lemma GameOverReturnsToMenu(e: EngineState, keys: seq<Key>)
    requires e.mode == GameOver
    ensures Step(e, keys) == if Space in keys then e.(mode := Menu) else e
  {
    LoopSwitchesOnKey(e, keys, GameOver, Space, Menu);
  }

  /** The player count the last start key of a menu frame chooses, if any. */
  function LastStart(keys: seq<Key>): (r: int)
    ensures r == 0 <==> Space !in keys && Two !in keys
    ensures r in {0, 1, 2}
    decreases |keys|
  {
    if keys == [] then 0
    else if keys[|keys| - 1] == Space then 1
    else if keys[|keys| - 1] == Two then 2
    else
      assert keys == keys[..|keys| - 1] + [keys[|keys| - 1]];
      LastStart(keys[..|keys| - 1])
  }

  /**
   * In the menu, space starts a one-player game and '2' a two-player game:
   * a fresh scene, score 0, the player count of the last start key. Without
   * a start key the menu stays as it is.
   */
  lemma {:induction false} MenuStartsGames(e: EngineState, keys: seq<Key>)
    requires e.mode == Menu
    ensures Step(e, keys) == if LastStart(keys) == 0 then e else StartedGame(e, LastStart(keys))
    decreases |keys|
  {
    if keys != [] {
      MenuStartsGames(e, keys[..|keys| - 1]);
    }
  }

  /** One frame of the main loop: `update`, then `draw`, which updates the high score only on the game-over screen. */
  function Frame(e: EngineState, keys: seq<Key>): EngineState {
    var s := Step(e, keys);
    if s.mode == GameOver then GameOverDrawn(s) else s
  }

  /** The frames of a session, in order. */
  function Run(e: EngineState, frames: seq<seq<Key>>): EngineState
    decreases |frames|
  {
    if frames == [] then e else Frame(Run(e, frames[..|frames| - 1]), frames[|frames| - 1])
  }

  /**
   * Nothing ever sets the engine's score, so from the initial state the
   * score and the high score stay 0 and the game-over mode is never
   * entered, whatever keys are pressed.
   */
  lemma {:induction false} NeverGameOver(frames: seq<seq<Key>>)
    ensures var e := Run(Initial, frames);
      e.mode != GameOver && e.score == 0 && e.highScore == 0
    decreases |frames|
  {
    if frames != [] {
      var prev := Run(Initial, frames[..|frames| - 1]);
      var keys := frames[|frames| - 1];
      NeverGameOver(frames[..|frames| - 1]);
      StepNeverEntersGameOver(prev, keys);
      if prev.mode == Menu {
        MenuStartsGames(prev, keys);
      } else if prev.mode == Playing {
        PlayingPausesOnP(prev, keys);
      } else {
        PausedResumesOnlyOnP(prev, keys);
      }
    }
  }

  class GameEngine {
    var state: Mode
    var playerCount: int
    var score: int
    var highScore: int
    /** Whether `elevator_scene` is set. */
    var hasScene: bool

    function State(): EngineState
      reads this
    {
      EngineState(state, playerCount, score, highScore, hasScene)
    }

    /** `__init__`. */
    constructor ()
      ensures State() == Initial
    {
      state := Menu;
      playerCount := 1;
      score := 0;
      highScore := 0;
      hasScene := false;
    }

    /** `_start_game`. */
    method StartGame(players: int)
      modifies this
      ensures State() == StartedGame(old(State()), players)
    {
      playerCount := players;
      state := Playing;
      hasScene := true;
      score := 0;
    }

    /** `_update_menu`: the start keys, in order. */
    method UpdateMenu(keys: seq<Key>)
      modifies this
      ensures State() == Loop(old(State()), keys, Menu)
    {
      for i := 0 to |keys|
        invariant State() == Loop(old(State()), keys[..i], Menu)
      {
        assert keys[..i + 1][..i] == keys[..i];
        if keys[i] == Space {
          StartGame(1);
        } else if keys[i] == Two {
          StartGame(2);
        }
      }
      assert keys[..|keys|] == keys;
    }

    /** `_update_paused`. */
    method UpdatePaused(keys: seq<Key>)
      modifies this`state
      ensures State() == Loop(old(State()), keys, Paused)
    {
      for i := 0 to |keys|
        invariant State() == Loop(old(State()), keys[..i], Paused)
      {
        assert keys[..i + 1][..i] == keys[..i];
        if keys[i] == P {
          state := Playing;
        }
      }
      assert keys[..|keys|] == keys;
    }

    /** `_update_game_over`. */
    method UpdateGameOver(keys: seq<Key>)
      modifies this`state
      ensures State() == Loop(old(State()), keys, GameOver)
    {
      for i := 0 to |keys|
        invariant State() == Loop(old(State()), keys[..i], GameOver)
      {
        assert keys[..i + 1][..i] == keys[..i];
        if keys[i] == Space {
          state := Menu;
        }
      }
      assert keys[..|keys|] == keys;
    }

    /** The pause check that follows the scene update in `update`. */
    method CheckPause(keys: seq<Key>)
      modifies this`state
      ensures State() == Loop(old(State()), keys, Playing)
    {
      for i := 0 to |keys|
        invariant State() == Loop(old(State()), keys[..i], Playing)
      {
        assert keys[..i + 1][..i] == keys[..i];
        if keys[i] == P {
          state := Paused;
        }
      }
      assert keys[..|keys|] == keys;
    }

    /** `update`: one frame's keys, handled by the loop of the current mode. */
    method Update(keys: seq<Key>)
      modifies this
      ensures State() == Step(old(State()), keys)
    {
      match state {
        case Menu => UpdateMenu(keys);
        case Playing =>
          if hasScene {
            CheckPause(keys);
          }
        case Paused => UpdatePaused(keys);
        case GameOver => UpdateGameOver(keys);
      }
    }

    /** The high-score update of `_draw_game_over`. */
    method DrawGameOver()
      modifies this`highScore
      ensures State() == GameOverDrawn(old(State()))
    {
      if score > highScore {
        highScore := score;
      }
    }
  }
}
