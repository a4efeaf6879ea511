/**
 * The decisions `main` takes between reading the configuration and entering
 * the GLUT loop, in the order it takes them: no file chosen ends with 1, an
 * input that does not open ends with -1, an output that does not open ends
 * with -1; otherwise the loop starts with fresh counters. The dialog, the
 * decoder and the encoder are outside the model: their answers are parameters.
 */
module Launch {
  import opened Types
  import OutputName
  import FourCC
  import IniConfig
  import Sequencer

  /** What `main` has settled when it enters the loop. */
  datatype Plan = Plan(
    outputName: string,        // NAME
    codec: FourCC.Codec,       // the codec handed to the writer
    inputTag: seq<nat>,        // EXT, the input codec's bytes
    width: Int32,              // Sout
    height: Int32,
    counters: Sequencer.Counters)

  datatype Outcome = Exit(code: int) | Loop(plan: Plan)

  /** `main` after the ini block. `chosen` is the dialog's answer, `sourceOpens` whether the
      input opened, `ex` its codec integer, `sinkOpens` whether the writer opens for a name and
      codec, and `now` the clock reading taken into `t_start`. */
  function Launch(cfg: IniConfig.Config, chosen: Option<string>, sourceOpens: bool, ex: Int32,
                  sinkOpens: (string, FourCC.Codec) -> bool, now: int): (o: Outcome)
    // the three pre-loop failures, in the order they are checked
    ensures chosen.None? ==> o == Exit(1)
    ensures chosen.Some? && !sourceOpens ==> o == Exit(-1)
    ensures chosen.Some? && sourceOpens ==>
      (o.Exit? <==> !sinkOpens(OutputName.DeriveName(chosen.value), FourCC.SelectCodec(cfg.fourcc, ex)))
    ensures chosen.Some? && sourceOpens ==>
      (!sinkOpens(OutputName.DeriveName(chosen.value), FourCC.SelectCodec(cfg.fourcc, ex)) ==> o == Exit(-1))
    ensures o.Exit? ==> o.code != 0
    // otherwise the writer was opened on the derived name with the selected codec
    ensures o.Loop? ==> (
      && chosen.Some? && sourceOpens
      && o.plan.outputName == OutputName.DeriveName(chosen.value)
      && o.plan.codec == FourCC.SelectCodec(cfg.fourcc, ex)
      && sinkOpens(o.plan.outputName, o.plan.codec)
      && o.plan.inputTag == FourCC.Unpack(ex)
      && o.plan.width == cfg.width && o.plan.height == cfg.height
      && o.plan.counters == Sequencer.Start(now))
  {
    if chosen.None? then Exit(1)
    else if !sourceOpens then Exit(-1)
    else
      var name := OutputName.DeriveName(chosen.value);
      var ext := FourCC.Unpack(ex);
      var codec := FourCC.SelectCodec(cfg.fourcc, ex);
      if !sinkOpens(name, codec) then Exit(-1)
      else Loop(Plan(name, codec, ext, cfg.width, cfg.height, Sequencer.Start(now)))
  }

  /** Without an ini file the output is written with Xvid, whatever the input's codec. */
  lemma NoIniWritesXvid(ex: Int32)
    ensures FourCC.SelectCodec(IniConfig.IniSettings(None).fourcc, ex) == FourCC.Tag('X', 'V', 'I', 'D')
  {
    FourCC.DefaultSelectsXvid(ex);
  }

  /** With a well-formed ini file the input's codec is kept exactly when word 7 begins with
      "NULL"; a shorter word such as "NUL" leaves its NUL terminator inside the four cells. */
  lemma NullWordKeepsInputCodec(tokens: seq<IniConfig.Token>, ex: Int32)
    requires IniConfig.WellFormed(tokens)
    ensures FourCC.SelectCodec(IniConfig.IniSettings(Some(tokens)).fourcc, ex).InputCodec?
      <==> |tokens[7]| >= 4 && tokens[7][..4] == "NULL"
  {
    IniConfig.WellFormedLayout(tokens);
    var t := tokens[7];
    var cells := IniConfig.StoreWord("XVID", t);
    if |t| >= 4 {
      assert cells == t[..4];
    } else {
      assert cells[|t|] == '\0';
    }
  }

  /** A whole run: when everything opens and the video has K frames before its end, the
      process ends with exit code 0 having counted exactly K frames. */
  lemma RunEndsWithZero(cfg: IniConfig.Config, path: string, ex: Int32,
                        sinkOpens: (string, FourCC.Codec) -> bool, now: int,
                        frames: seq<Sequencer.Event>, t1: int, t2: int)
    requires sinkOpens(OutputName.DeriveName(path), FourCC.SelectCodec(cfg.fourcc, ex))
    requires Sequencer.AllFrames(frames)
    ensures var o := Launch(cfg, Some(path), true, ex, sinkOpens, now);
      o.Loop? &&
      var t := Sequencer.Run(o.plan.counters, frames + [Sequencer.IdleCall(true, t1, t2)]);
      t.final.phase == Sequencer.Terminated(0) && t.final.framenum == |frames|
  {
    var o := Launch(cfg, Some(path), true, ex, sinkOpens, now);
    Sequencer.EndOfStream(o.plan.counters, frames, t1, t2, []);
    assert frames + [Sequencer.IdleCall(true, t1, t2)] + [] == frames + [Sequencer.IdleCall(true, t1, t2)];
  }
}
