/** Review answers: how a client collects a batch, and what the Host accepts as one. */
module ReviewBatch {
  import opened Options
  import JsText

  datatype Decision = Approve | Reject | Respond

  /** `asksText` is the option's text input, `authorizes` an authorizing effect. */
  datatype Choice = Choice(id: string, asksText: bool, decision: Decision, authorizes: bool)

  datatype Review = Review(id: string, options: seq<Choice>)

  /** What a client sees of an option: not its decision, but when to send. */
  datatype PublicChoice = PublicChoice(id: string, asksText: bool, immediate: bool)

  datatype Interaction = Interaction(id: string, options: seq<PublicChoice>)

  datatype Response = Response(interaction: string, option: string, input: Option<string>)

  function ProjectChoice(c: Choice): PublicChoice {
    PublicChoice(c.id, c.asksText, c.decision != Approve)
  }

  function ProjectChoices(options: seq<Choice>): (public: seq<PublicChoice>)
    ensures |public| == |options|
  {
    seq(|options|, i requires 0 <= i < |options| => ProjectChoice(options[i]))
  }

  function Project(r: Review): Interaction {
    Interaction(r.id, ProjectChoices(r.options))
  }

  function ProjectAll(rs: seq<Review>): (interactions: seq<Interaction>)
    ensures |interactions| == |rs|
  {
    seq(|rs|, i requires 0 <= i < |rs| => Project(rs[i]))
  }

  // ------------------------------------------------------------ the client

  /** The first option with an id, or the number of options. */
  function FindBy<T>(options: seq<T>, idOf: T -> string, id: string): (i: nat)
    ensures i <= |options| && (i < |options| ==> idOf(options[i]) == id)
    ensures forall k :: 0 <= k < i ==> idOf(options[k]) != id
  {
    assert forall k :: 0 < k < |options| ==> options[k] == options[1..][k - 1];
    if options == [] || idOf(options[0]) == id then 0 else 1 + FindBy(options[1..], idOf, id)
  }

  function FindPublic(options: seq<PublicChoice>, id: string): nat {
    FindBy(options, (c: PublicChoice) => c.id, id)
  }

  /** An earlier answer is still good when it answers its interaction with an option to be collected. */
  predicate Collected(interaction: Interaction, r: Response) {
    var i := FindPublic(interaction.options, r.option);
    interaction.id == r.interaction && i < |interaction.options| && !interaction.options[i].immediate
  }

  predicate RemainValid(interactions: seq<Interaction>, responses: seq<Response>) {
    |responses| < |interactions| && forall k :: 0 <= k < |responses| ==> Collected(interactions[k], responses[k])
  }

  datatype Prepared = Stale | InputRequired | Ready(responses: seq<Response>, shouldSend: bool)

  function Prepare(interactions: seq<Interaction>, responses: seq<Response>, option: string, text: string): Prepared {
    if !RemainValid(interactions, responses) then Stale
    else
      var interaction := interactions[|responses|];
      var i := FindPublic(interaction.options, option);
      if i == |interaction.options| then Stale
      else
        var chosen := interaction.options[i];
        var said := JsText.Trim(text);
        if chosen.asksText && said == "" then InputRequired
        else
          var answer := Response(interaction.id, chosen.id, if chosen.asksText then Some(said) else None);
          Ready(responses + [answer], chosen.immediate || |responses| + 1 >= |interactions|)
  }

  /** The i-th of these options is the first one with this id. */
  ghost predicate Offers(options: seq<PublicChoice>, id: string, i: nat) {
    i < |options| && options[i].id == id && forall k :: 0 <= k < i ==> options[k].id != id
  }

  /** An earlier answer as it must be: to this interaction, with an option that waits for the rest. */
  ghost predicate Waits(interaction: Interaction, r: Response) {
    r.interaction == interaction.id && exists i: nat :: Offers(interaction.options, r.option, i) && !interaction.options[i].immediate
  }

  lemma CollectedWaits(interaction: Interaction, r: Response)
    ensures Collected(interaction, r) <==> Waits(interaction, r)
  {
    FindsFirst(interaction.options, r.option);
    hide FindPublic;
  }

  lemma FindsFirst(options: seq<PublicChoice>, id: string)
    ensures FindPublic(options, id) <= |options|
    ensures FindPublic(options, id) < |options| ==> Offers(options, id, FindPublic(options, id))
    ensures forall i: nat :: Offers(options, id, i) ==> i == FindPublic(options, id)
  {
  }

  /** What is wanted of a pick: every earlier answer still good, and the option there for the next interaction. */
  ghost predicate Timely(interactions: seq<Interaction>, responses: seq<Response>, option: string, i: nat) {
    && |responses| < |interactions|
    && (forall k :: 0 <= k < |responses| ==> Waits(interactions[k], responses[k]))
    && Offers(interactions[|responses|].options, option, i)
  }

  /**
   A pick is stale exactly if an earlier answer no longer waits or the option is unknown;
   it lacks input exactly if its option asks for text and the text is blank; otherwise it
   adds one answer, which names its interaction and option, brings the trimmed text just
   if it was asked for, and is sent at once if the option says so or it is the last.
   */
  lemma PrepareSays(interactions: seq<Interaction>, responses: seq<Response>, option: string, text: string)
    ensures var p := Prepare(interactions, responses, option, text);
            && (p.Stale? <==> forall i: nat :: !Timely(interactions, responses, option, i))
            && forall i: nat :: Timely(interactions, responses, option, i) ==>
                 var interaction, chosen := interactions[|responses|], interactions[|responses|].options[i];
                 && (p.InputRequired? <==> chosen.asksText && JsText.IsBlank(text))
                 && (p.Ready? ==>
                       && |p.responses| == |responses| + 1 && responses <= p.responses
                       && p.responses[|responses|].interaction == interaction.id && p.responses[|responses|].option == option
                       && Brings(p.responses[|responses|], chosen.asksText, text)
                       && (p.shouldSend <==> chosen.immediate || |responses| == |interactions| - 1))
  {
    if |responses| < |interactions| {
      forall k | 0 <= k < |responses| ensures Collected(interactions[k], responses[k]) <==> Waits(interactions[k], responses[k]) {
        CollectedWaits(interactions[k], responses[k]);
      }
      FindsFirst(interactions[|responses|].options, option);
      JsText.TrimTrims(text);
      if !Prepare(interactions, responses, option, text).Stale? {
        assert Timely(interactions, responses, option, FindPublic(interactions[|responses|].options, option));
      }
    }
    hide Collected; hide Waits; hide FindPublic; hide JsText.Trims; hide JsText.Trim;
  }

  /** Text that was asked for, trimmed; none that was not. */
  ghost predicate Brings(r: Response, asked: bool, text: string) {
    if asked then r.input.Some? && JsText.Trims(text, r.input.value) else r.input.None?
  }

  /** A user's picks, one after another; picks that need input or are stale lead nowhere. */
  datatype Pick = Pick(option: string, text: string)

  function Play(interactions: seq<Interaction>, picks: seq<Pick>): Option<(seq<Response>, bool)>
    decreases |picks|
  {
    if picks == [] then Some(([], false))
    else
      var before, last := Play(interactions, picks[..|picks| - 1]), picks[|picks| - 1];
      if before.None? || before.value.1 then None
      else
        match Prepare(interactions, before.value.0, last.option, last.text)
        case Ready(responses, shouldSend) => Some((responses, shouldSend))
        case _ => None
  }

  ghost predicate ClientSends(interactions: seq<Interaction>, batch: seq<Response>) {
    exists picks :: Play(interactions, picks) == Some((batch, true))
  }

  // -------------------------------------------------------------- the Host

  datatype Error = InvalidResponse | StaleReview | UnknownOption | UnexpectedInput | InvalidEffect | MissingInput

  function Find(options: seq<Choice>, id: string): nat {
    FindBy(options, (c: Choice) => c.id, id)
  }

  /** One answer against its review, in the order the checks are made. */
  function Resolve(review: Review, r: Response): Option<Error> {
    var i := Find(review.options, r.option);
    if r.interaction != review.id then Some(StaleReview)
    else if i == |review.options| then Some(UnknownOption)
    else if r.input.Some? && !review.options[i].asksText then Some(UnexpectedInput)
    else if review.options[i].authorizes && review.options[i].decision != Approve then Some(InvalidEffect)
    else if review.options[i].decision == Respond && (r.input.None? || JsText.IsBlank(r.input.value)) then Some(MissingInput)
    else None
  }

  function Chosen(review: Review, r: Response): Choice
    requires Resolve(review, r).None?
  {
    review.options[Find(review.options, r.option)]
  }

  predicate Approves(review: Review, r: Response) {
    Resolve(review, r).None? && Chosen(review, r).decision == Approve
  }

  /** A batch answers the reviews in order; only approvals lead on, and only a stop or the last review ends it. */
  predicate Accepted(reviews: seq<Review>, batch: seq<Response>) {
    && 1 <= |batch| <= |reviews|
    && (forall k :: 0 <= k < |batch| ==> Resolve(reviews[k], batch[k]).None?)
    && (forall k :: 0 <= k < |batch| - 1 ==> Approves(reviews[k], batch[k]))
    && (Approves(reviews[|batch| - 1], batch[|batch| - 1]) ==> |batch| == |reviews|)
  }

  /** An answer the Host takes: to its own review, with one of its options, no text unasked, no effect without approval, no response without text. */
  ghost predicate Takes(review: Review, r: Response, i: nat) {
    && r.interaction == review.id
    && i < |review.options| && review.options[i].id == r.option && (forall k :: 0 <= k < i ==> review.options[k].id != r.option)
    && (r.input.Some? ==> review.options[i].asksText)
    && (review.options[i].authorizes ==> review.options[i].decision == Approve)
    && (review.options[i].decision == Respond ==> r.input.Some? && !JsText.IsBlank(r.input.value))
  }

  lemma FindsFirstChoice(options: seq<Choice>, id: string)
    ensures Find(options, id) <= |options| && forall k :: 0 <= k < Find(options, id) ==> options[k].id != id
    ensures Find(options, id) < |options| ==> options[Find(options, id)].id == id
  {
  }

  /** What each refusal of one answer means. */
  lemma ResolveSays(review: Review, r: Response)
    ensures Resolve(review, r).None? <==> exists i: nat :: Takes(review, r, i)
    ensures forall i: nat :: Takes(review, r, i) ==> (Approves(review, r) <==> review.options[i].decision == Approve)
    ensures Resolve(review, r) == Some(StaleReview) <==> r.interaction != review.id
    ensures Resolve(review, r) == Some(UnknownOption) <==> r.interaction == review.id && forall c :: c in review.options ==> c.id != r.option
    ensures Resolve(review, r) == Some(UnexpectedInput) ==> r.input.Some? && exists c :: c in review.options && c.id == r.option && !c.asksText
    ensures Resolve(review, r) == Some(InvalidEffect) ==> exists c :: c in review.options && c.id == r.option && c.authorizes && c.decision != Approve
    ensures Resolve(review, r) == Some(MissingInput) ==>
              (r.input.None? || JsText.IsBlank(r.input.value)) && exists c :: c in review.options && c.id == r.option && c.decision == Respond
    ensures Resolve(review, r) != Some(InvalidResponse)
  {
    var i := Find(review.options, r.option);
    FindsFirstChoice(review.options, r.option);
    if i < |review.options| {
      var c := review.options[i];
      assert c in review.options && c.id == r.option;
      if Resolve(review, r).None? { assert Takes(review, r, i); }
    }
    hide Find; hide JsText.IsBlank;
  }

  /** Accepted without the names of the checks: an approval leads on to the next review, anything else ends the batch. */
  lemma AcceptedTakes(reviews: seq<Review>, batch: seq<Response>)
    ensures Accepted(reviews, batch) <==>
              && 1 <= |batch| <= |reviews|
              && forall k :: 0 <= k < |batch| ==> Settles(reviews[k], batch[k], k < |batch| - 1, |batch| == |reviews|)
  {
    forall k | 0 <= k < |batch| && k < |reviews|
      ensures Settles(reviews[k], batch[k], k < |batch| - 1, |batch| == |reviews|) <==>
                && Resolve(reviews[k], batch[k]).None?
                && (k < |batch| - 1 ==> Approves(reviews[k], batch[k]))
                && (k == |batch| - 1 ==> Approves(reviews[k], batch[k]) ==> |batch| == |reviews|)
    {
      ResolveSays(reviews[k], batch[k]);
      hide Takes; hide Resolve; hide Approves;
    }
    hide Settles; hide Resolve; hide Approves;
  }

  ghost predicate Settles(review: Review, r: Response, more: bool, all: bool) {
    exists i: nat :: Takes(review, r, i) && if review.options[i].decision == Approve then more || all else !more
  }

  method ValidateResponses(reviews: seq<Review>, decisions: seq<Response>) returns (error: Option<Error>)
    ensures error.None? <==> Accepted(reviews, decisions)
    ensures decisions == [] || |decisions| > |reviews| ==> error == Some(InvalidResponse)
    ensures error.Some? && error.value != InvalidResponse ==>
              exists k :: 0 <= k < |decisions| && k < |reviews| && Resolve(reviews[k], decisions[k]) == error
                     && forall j :: 0 <= j < k ==> Approves(reviews[j], decisions[j])
    ensures error == Some(InvalidResponse) && 1 <= |decisions| <= |reviews| ==>
              exists k :: 0 <= k < |decisions| && Resolve(reviews[k], decisions[k]).None?
                     && (forall j :: 0 <= j < k ==> Approves(reviews[j], decisions[j]))
                     && if Approves(reviews[k], decisions[k]) then k == |decisions| - 1 && |decisions| < |reviews| else k < |decisions| - 1
  {
    if decisions == [] || |decisions| > |reviews| { return Some(InvalidResponse); }
    var index := 0;
    while index < |decisions|
      invariant 0 <= index <= |decisions|
      invariant forall k :: 0 <= k < index ==> Resolve(reviews[k], decisions[k]).None?
      invariant forall k :: 0 <= k < index && k < |decisions| - 1 ==> Approves(reviews[k], decisions[k])
      invariant index == |decisions| ==> Accepted(reviews, decisions)
    {
      var failed := Resolve(reviews[index], decisions[index]);
      if failed.Some? { return failed; }
      var approved := Chosen(reviews[index], decisions[index]).decision == Approve;
      var isFinal := index == |decisions| - 1;
      if !approved && !isFinal { return Some(InvalidResponse); }
      if approved && isFinal && |decisions| < |reviews| { return Some(InvalidResponse); }
      index := index + 1;
    }
    error := None;
  }

  // ------------------------------------------------------------- agreement

  /** An option the Host can take from a client that only knows the public side. */
  predicate Answerable(c: Choice) {
    (c.decision == Respond ==> c.asksText) && (c.authorizes ==> c.decision == Approve)
  }

  /** An answer as a client writes it: text exactly where it is asked for, trimmed and not empty. */
  predicate Canonical(review: Review, r: Response) {
    var i := Find(review.options, r.option);
    && r.interaction == review.id && i < |review.options|
    && (review.options[i].asksText ==> r.input.Some? && r.input.value != "" && JsText.Trim(r.input.value) == r.input.value)
    && (!review.options[i].asksText ==> r.input.None?)
  }

  predicate Answers(review: Review, r: Response) {
    var i := Find(review.options, r.option);
    i < |review.options| && Answerable(review.options[i])
  }

  lemma {:induction false} FindsSame(options: seq<Choice>, id: string)
    ensures FindPublic(ProjectChoices(options), id) == Find(options, id)
  {
    if options != [] && options[0].id != id {
      assert ProjectChoices(options)[1..] == ProjectChoices(options[1..]);
      FindsSame(options[1..], id);
    }
  }

  /** For a canonical answer to an answerable option, being resolved asks nothing more. */
  lemma CanonicalResolves(review: Review, r: Response)
    requires Canonical(review, r)
    ensures Resolve(review, r).None? <==> Answers(review, r)
  {
  }

  lemma CollectedApproves(review: Review, r: Response)
    requires Canonical(review, r)
    ensures Collected(Project(review), r) <==> review.options[Find(review.options, r.option)].decision == Approve
  {
    FindsSame(review.options, r.option);
  }

  /** What a client can have collected, and whether it has just sent it. */
  predicate Buildable(reviews: seq<Review>, batch: seq<Response>, sent: bool) {
    && |batch| <= |reviews|
    && (forall k :: 0 <= k < |batch| ==> Canonical(reviews[k], batch[k]))
    && (forall k :: 0 <= k < |batch| - 1 ==> Collected(Project(reviews[k]), batch[k]))
    && (batch == [] ==> !sent)
    && (batch != [] ==> (sent <==> !Collected(Project(reviews[|batch| - 1]), batch[|batch| - 1]) || |batch| == |reviews|))
  }

  lemma TrimTwice(t: string)
    ensures JsText.Trim(JsText.Trim(t)) == JsText.Trim(t)
  {
  }

  /** The answer that a pick adds, if it is taken. */
  lemma PreparedIsCanonical(reviews: seq<Review>, responses: seq<Response>, option: string, text: string)
    requires |responses| < |reviews|
    ensures var p := Prepare(ProjectAll(reviews), responses, option, text);
            p.Ready? ==> |p.responses| == |responses| + 1 && p.responses[..|responses|] == responses
                         && Canonical(reviews[|responses|], p.responses[|responses|])
                         && (p.shouldSend <==> !Collected(Project(reviews[|responses|]), p.responses[|responses|]) || |responses| + 1 == |reviews|)
  {
    var review := reviews[|responses|];
    assert ProjectAll(reviews)[|responses|] == Project(review);
    FindsSame(review.options, option);
    TrimTwice(text);
    hide RemainValid; hide Find; hide FindPublic;
  }

  lemma ReadyWasValid(interactions: seq<Interaction>, responses: seq<Response>, option: string, text: string)
    requires Prepare(interactions, responses, option, text).Ready?
    ensures RemainValid(interactions, responses)
  {
    hide RemainValid; hide FindPublic;
  }

  lemma PreparedBuilds(reviews: seq<Review>, responses: seq<Response>, option: string, text: string)
    requires Buildable(reviews, responses, false)
    ensures var p := Prepare(ProjectAll(reviews), responses, option, text);
            p.Ready? ==> Buildable(reviews, p.responses, p.shouldSend)
  {
    hide Canonical; hide Collected; hide Prepare; hide Project;
    var p := Prepare(ProjectAll(reviews), responses, option, text);
    if p.Ready? {
      ReadyWasValid(ProjectAll(reviews), responses, option, text);
      PreparedIsCanonical(reviews, responses, option, text);
      forall k | 0 <= k < |p.responses| ensures Canonical(reviews[k], p.responses[k]) {
        if k < |responses| { assert p.responses[k] == responses[k]; }
      }
      forall k | 0 <= k < |responses| ensures Collected(Project(reviews[k]), p.responses[k]) {
        assert p.responses[k] == responses[k] && ProjectAll(reviews)[k] == Project(reviews[k]);
      }
    }
  }

  lemma {:induction false} PlayBuilds(reviews: seq<Review>, picks: seq<Pick>)
    ensures Play(ProjectAll(reviews), picks).Some? ==>
              Buildable(reviews, Play(ProjectAll(reviews), picks).value.0, Play(ProjectAll(reviews), picks).value.1)
    decreases |picks|
  {
    hide Buildable; hide Prepare;
    if picks != [] {
      PlayBuilds(reviews, picks[..|picks| - 1]);
      var before, last := Play(ProjectAll(reviews), picks[..|picks| - 1]), picks[|picks| - 1];
      if before.Some? && !before.value.1 { PreparedBuilds(reviews, before.value.0, last.option, last.text); }
    } else {
      NothingBuilt(reviews);
    }
  }

  lemma NothingBuilt(reviews: seq<Review>)
    ensures Buildable(reviews, [], false)
  {
  }

  /** The picks that lead to a batch. */
  function PicksFor(batch: seq<Response>): seq<Pick> {
    seq(|batch|, i requires 0 <= i < |batch| => Pick(batch[i].option, if batch[i].input.Some? then batch[i].input.value else ""))
  }

  /** A canonical answer is what its own pick prepares. */
  lemma PreparesAnswer(reviews: seq<Review>, responses: seq<Response>, r: Response)
    requires |responses| < |reviews| && Canonical(reviews[|responses|], r)
    requires forall k :: 0 <= k < |responses| ==> Collected(ProjectAll(reviews)[k], responses[k])
    ensures var p := Prepare(ProjectAll(reviews), responses, r.option, if r.input.Some? then r.input.value else "");
            p.Ready? && p.responses == responses + [r]
  {
    var review := reviews[|responses|];
    assert ProjectAll(reviews)[|responses|] == Project(review);
    FindsSame(review.options, r.option);
    assert RemainValid(ProjectAll(reviews), responses);
    hide Find; hide FindPublic; hide Collected; hide RemainValid;
  }

  lemma {:induction false} BuildsByPlay(reviews: seq<Review>, batch: seq<Response>)
    requires |batch| <= |reviews|
    requires forall k :: 0 <= k < |batch| ==> Canonical(reviews[k], batch[k])
    requires forall k :: 0 <= k < |batch| - 1 ==> Collected(Project(reviews[k]), batch[k])
    ensures Play(ProjectAll(reviews), PicksFor(batch)).Some? && Play(ProjectAll(reviews), PicksFor(batch)).value.0 == batch
    decreases |batch|
  {
    hide Canonical; hide Collected; hide Prepare; hide Project;
    if batch != [] {
      var front, last := batch[..|batch| - 1], batch[|batch| - 1];
      forall k | 0 <= k < |front| - 1 ensures Collected(Project(reviews[k]), front[k]) { assert front[k] == batch[k]; }
      BuildsByPlay(reviews, front);
      assert PicksFor(batch)[..|batch| - 1] == PicksFor(front);
      PlayBuilds(reviews, PicksFor(front));
      forall k | 0 <= k < |front| ensures Collected(ProjectAll(reviews)[k], front[k]) {
        assert front[k] == batch[k] && ProjectAll(reviews)[k] == Project(reviews[k]);
      }
      PreparesAnswer(reviews, front, last);
      assert front + [last] == batch;
    }
  }

  /** The batches a client can put together and send are exactly these. */
  lemma SentIsBuildable(reviews: seq<Review>, batch: seq<Response>)
    ensures ClientSends(ProjectAll(reviews), batch) <==> Buildable(reviews, batch, true)
  {
    if Buildable(reviews, batch, true) {
      BuildsByPlay(reviews, batch);
      PlayBuilds(reviews, PicksFor(batch));
      hide Canonical; hide Collected;
      assert Play(ProjectAll(reviews), PicksFor(batch)) == Some((batch, true));
    }
    if ClientSends(ProjectAll(reviews), batch) {
      var picks :| Play(ProjectAll(reviews), picks) == Some((batch, true));
      PlayBuilds(reviews, picks);
    }
  }

  /**
   Client and Host agree: what a client can send, and the Host then takes, is what the
   Host accepts of canonical answers; and of what a client can send, the Host takes just
   the batches whose options are all answerable.
   */
  lemma ClientAndHostAgree(reviews: seq<Review>, batch: seq<Response>)
    ensures ClientSends(ProjectAll(reviews), batch) ==>
              (Accepted(reviews, batch) <==> forall k :: 0 <= k < |batch| && k < |reviews| ==> Answers(reviews[k], batch[k]))
    ensures Accepted(reviews, batch) && (forall k :: 0 <= k < |batch| ==> Canonical(reviews[k], batch[k])) ==>
              ClientSends(ProjectAll(reviews), batch)
  {
    SentIsBuildable(reviews, batch);
    forall k | 0 <= k < |batch| && k < |reviews| && Canonical(reviews[k], batch[k])
      ensures Collected(Project(reviews[k]), batch[k]) <==> reviews[k].options[Find(reviews[k].options, batch[k].option)].decision == Approve
      ensures Resolve(reviews[k], batch[k]).None? <==> Answers(reviews[k], batch[k])
    {
      CollectedApproves(reviews[k], batch[k]);
      CanonicalResolves(reviews[k], batch[k]);
    }
    hide ClientSends; hide Collected; hide Project; hide Find;
  }

  /** A review specification can offer an answer that a client can send and the Host cannot take. */
  lemma UnanswerableOption()
    ensures var reviews := [Review("review", [Choice("say", false, Respond, false)])];
            var batch := [Response("review", "say", None)];
            ClientSends(ProjectAll(reviews), batch) && !Accepted(reviews, batch)
  {
    var reviews := [Review("review", [Choice("say", false, Respond, false)])];
    var batch := [Response("review", "say", None)];
    SentIsBuildable(reviews, batch);
    FindsSame(reviews[0].options, "say");
    assert Canonical(reviews[0], batch[0]);
    assert Resolve(reviews[0], batch[0]) == Some(MissingInput);
  }

  /** So can an option that authorizes an effect and does not approve. */
  lemma UnauthorizedOption()
    ensures var reviews := [Review("review", [Choice("deny", false, Reject, true)])];
            var batch := [Response("review", "deny", None)];
            ClientSends(ProjectAll(reviews), batch) && !Accepted(reviews, batch)
  {
    var reviews := [Review("review", [Choice("deny", false, Reject, true)])];
    var batch := [Response("review", "deny", None)];
    SentIsBuildable(reviews, batch);
    FindsSame(reviews[0].options, "deny");
    assert Canonical(reviews[0], batch[0]);
    assert Resolve(reviews[0], batch[0]) == Some(InvalidEffect);
  }
}
