/**
 * The mock language-model server of the wellness companion
 * (wellness/WellnessCompanion-ui/flask_server.py): how `/api/chat` pulls an
 * emotion and a quoted passage out of the user message and routes the
 * request, and the canned reply tables it draws from.
 *
 * `random.choice(replies)` is modelled as `replies[pick % |replies|]` with the
 * pick a parameter; contracts only say the reply is one of the list.
 */
module FlaskServer {
  import opened Wrappers
  import opened Text
  import opened ChatMessages

  // ---------------------------------------------------------------------
  // Keyword lists, in the order the server tests them

  const HappyTerms: seq<string> := ["happy", "joy", "excited", "content", "pleased"]
  const SadTerms: seq<string> := ["sad", "down", "depressed", "unhappy", "disappointed"]
  const AngryTerms: seq<string> := ["angry", "mad", "frustrated", "annoyed", "irritated"]
  const AnxiousTerms: seq<string> := ["anxious", "worried", "nervous", "stressed", "afraid"]
  const Perspectives: seq<string> := ["therapist", "friend", "parent", "mentor"]

  /** Python `any(t in text for t in terms)`. */
  predicate AnyOccurs(text: string, terms: seq<string>) {
    exists k :: 0 <= k < |terms| && Contains(text, terms[k])
  }

  /** Index of the first term, in list order, that occurs in `text`. */
  function FirstMatch(text: string, terms: seq<string>): (r: Option<nat>)
    ensures r.Some? ==> r.value < |terms| && Contains(text, terms[r.value])
    ensures r.Some? ==> forall j :: 0 <= j < r.value ==> !Contains(text, terms[j])
    ensures r.None? <==> !AnyOccurs(text, terms)
  {
    if terms == [] then None
    else if Contains(text, terms[0]) then Some(0)
    else
      var r := FirstMatch(text, terms[1..]);
      assert forall k :: 1 <= k < |terms| ==> terms[1..][k - 1] == terms[k];
      match r
      case None => None
      case Some(k) => Some(k + 1)
  }

  // ---------------------------------------------------------------------
  // Parsing the user message (chat(), lines 44-56)

  /**
   * The emotion named after the word "feeling": the second piece of
   * `split("feeling")`, cut at the first ":" and stripped; "unknown" when
   * the message does not contain "feeling".
   */
  function ExtractEmotion(user: string): string {
    if Contains(user, "feeling") then
      var parts := Split(user, "feeling");
      if |parts| > 1 then Strip(Split(parts[1], ":")[0]) else "unknown"
    else "unknown"
  }

  /** The text between the first two double quotes, or "" when there are fewer than two. */
  function ExtractContent(user: string): string {
    if Contains(user, "\"") then
      var parts := Split(user, "\"");
      if |parts| > 2 then parts[1] else ""
    else ""
  }

  /** The piece of `s` before the first `sep`, all of `s` when there is none. */
  function Before(s: string, sep: string): string {
    match IndexOf(s, sep)
    case None => s
    case Some(i) => s[..i]
  }

  /**
   * The emotion, stated with searches instead of splits: the text after the
   * first "feeling" up to the next one, cut before the first ":", stripped.
   */
  lemma EmotionAfterFeeling(user: string)
    ensures IndexOf(user, "feeling").None? ==> ExtractEmotion(user) == "unknown"
    ensures IndexOf(user, "feeling").Some? ==>
      var rest := user[IndexOf(user, "feeling").value + 7..];
      ExtractEmotion(user) == Strip(Before(Before(rest, "feeling"), ":"))
  {
    match IndexOf(user, "feeling")
    case None =>
    case Some(i) =>
      var rest := user[i + 7..];
      assert Split(user, "feeling")[1] == Split(rest, "feeling")[0];
      SplitHead(rest, "feeling");
      SplitHead(Split(rest, "feeling")[0], ":");
  }

  /** A string none of whose characters is `c` does not contain `[c]`. */
  lemma AvoidsChar(s: string, c: char)
    requires forall k :: 0 <= k < |s| ==> s[k] != c
    ensures !Contains(s, [c])
  {
    forall j | 0 <= j < |s|
      ensures !OccursAt(s, [c], j)
    {
      assert s[j..j + 1][0] == s[j];
    }
  }

  /** The extracted emotion never holds a ":" (it was cut there). */
  lemma EmotionHasNoColon(user: string)
    ensures !Contains(ExtractEmotion(user), ":")
  {
    if Contains(user, "feeling") && |Split(user, "feeling")| > 1 {
      var piece := Split(user, "feeling")[1];
      SplitPartsAvoid(piece, ":", 0);
      StripAvoids(Split(piece, ":")[0], ":");
    } else {
      AvoidsChar("unknown", ':');
    }
  }

  /**
   * The content is the text strictly between the first double quote and the
   * next one; "" unless there are at least two.
   */
  lemma ContentBetweenQuotes(user: string)
    ensures IndexOf(user, "\"").None? ==> ExtractContent(user) == ""
    ensures IndexOf(user, "\"").Some? ==>
      var i := IndexOf(user, "\"").value;
      var after := user[i + 1..];
      ExtractContent(user) == match IndexOf(after, "\"") case None => "" case Some(j) => after[..j]
  {
    match IndexOf(user, "\"")
    case None =>
    case Some(i) =>
      var after := user[i + 1..];
      assert Split(user, "\"")[1..] == Split(after, "\"");
      SplitMoreThanOne(after, "\"");
      SplitHead(after, "\"");
  }

  /** The content never contains a double quote. */
  lemma ContentHasNoQuote(user: string)
    ensures !Contains(ExtractContent(user), "\"")
  {
    if Contains(user, "\"") && |Split(user, "\"")| > 2 {
      SplitPartsAvoid(user, "\"", 1);
    } else {
      AvoidsChar("", '"');
    }
  }

  // ---------------------------------------------------------------------
  // generate_analysis_response (lines 145-204)

  datatype Bucket = Happy | Sad | Angry | Anxious | Neutral

  /** The reply set, chosen by the first keyword list that matches the lowered emotion. */
  function BucketOf(emotion: string): Bucket {
    var lowered := Lower(emotion);
    if AnyOccurs(lowered, HappyTerms) then Happy
    else if AnyOccurs(lowered, SadTerms) then Sad
    else if AnyOccurs(lowered, AngryTerms) then Angry
    else if AnyOccurs(lowered, AnxiousTerms) then Anxious
    else Neutral
  }

  /**
   * "unhappy" is on the sad list, but it contains "happy", which is tested
   * first: an emotion containing it always gets the happy replies.
   */
  lemma UnhappyIsHappy(emotion: string)
    requires Contains(Lower(emotion), "unhappy")
    ensures BucketOf(emotion) == Happy
  {
    ContainsAt("unhappy", "happy", 2);
    ContainsTrans(Lower(emotion), "unhappy", "happy");
    assert Contains(Lower(emotion), HappyTerms[0]);
  }

  /** So the sad replies are only ever chosen through one of the other four sad keywords. */
  lemma SadNeedsOtherKeyword(emotion: string)
    requires BucketOf(emotion) == Sad
    ensures AnyOccurs(Lower(emotion), ["sad", "down", "depressed", "disappointed"])
  {
    var lowered := Lower(emotion);
    var k :| 0 <= k < |SadTerms| && Contains(lowered, SadTerms[k]);
    if k == 3 {
      UnhappyIsHappy(emotion);
      assert false;
    }
    var others: seq<string> := ["sad", "down", "depressed", "disappointed"];
    assert Contains(lowered, others[if k < 3 then k else 3]);
  }

  // `happy_responses`, lines 151-157

  function HappyReply1(emotion: string): (r: string)
    ensures Contains(r, emotion)
  {
    Embed("Your journal entry about " +
      "feeling ",
      emotion,
      " reveals a positive emotional " +
      "state. I notice genuine joy and " +
      "contentment in your words. " +
      "These positive emotions are " +
      "valuable resources that can " +
      "help build resilience for " +
      "future challenges. Consider " +
      "what specific elements " +
      "contributed to this happiness " +
      "and how you might intentionally " +
      "incorporate more of these into " +
      "your daily life.")
  }

  function HappyReply2(emotion: string): (r: string)
    ensures Contains(r, emotion)
  {
    Embed("I see that you're experiencing ",
      emotion,
      " feelings. Your entry shows " +
      "appreciation for the present " +
      "moment and a sense of " +
      "fulfillment. Research in " +
      "positive psychology suggests " +
      "that savoring these moments can " +
      "enhance overall well-being. " +
      "What aspects of this experience " +
      "would you like to remember or " +
      "recreate in the future?")
  }

  function HappyReply3(emotion: string): (r: string)
    ensures Contains(r, emotion)
  {
    Embed("Your reflection on feeling ",
      emotion,
      " demonstrates emotional " +
      "awareness and gratitude. I " +
      "notice how you're connecting " +
      "this positive emotion to " +
      "specific experiences and " +
      "relationships in your life. " +
      "This kind of emotional " +
      "intelligence helps build " +
      "stronger connections and a more " +
      "fulfilling life. How might you " +
      "share this positive energy with " +
      "others?")
  }

  // `sad_responses`, lines 159-165

  function SadReply1(emotion: string): (r: string)
    ensures Contains(r, emotion)
  {
    Embed("Your journal entry about " +
      "feeling ",
      emotion,
      " shows you're experiencing a " +
      "difficult emotional period. I " +
      "notice thoughtful reflection " +
      "about these feelings, which is " +
      "a healthy way to process them. " +
      "Sadness often signals something " +
      "meaningful to us has been " +
      "affected. What might your " +
      "sadness be telling you about " +
      "what you value most?")
  }

  function SadReply2(emotion: string): (r: string)
    ensures Contains(r, emotion)
  {
    Embed("I see that you're going through ",
      emotion,
      " feelings right now. Your entry " +
      "reveals depth of emotion and " +
      "self-awareness. Remember that " +
      "allowing yourself to experience " +
      "sadness is part of emotional " +
      "health. What small comfort or " +
      "self-care practice might help " +
      "you navigate through this " +
      "feeling today?")
  }

  function SadReply3(emotion: string): (r: string)
    ensures Contains(r, emotion)
  {
    Embed("Your reflection on feeling ",
      emotion,
      " shows emotional honesty and " +
      "vulnerability. These qualities " +
      "are strengths, not weaknesses. " +
      "I notice you're making " +
      "connections between your " +
      "feelings and your experiences, " +
      "which is an important part of " +
      "emotional processing. How have " +
      "you moved through similar " +
      "feelings in the past?")
  }

  // `angry_responses`, lines 167-173

  function AngryReply1(emotion: string): (r: string)
    ensures Contains(r, emotion)
  {
    Embed("Your journal entry about " +
      "feeling ",
      emotion,
      " reveals strong emotional " +
      "activation. I notice you're " +
      "aware of this intense feeling, " +
      "which is the first step in " +
      "healthy processing. Anger often " +
      "signals a boundary violation or " +
      "unmet need. What might your " +
      "anger be trying to protect or " +
      "what need might it be pointing " +
      "to?")
  }

  function AngryReply2(emotion: string): (r: string)
    ensures Contains(r, emotion)
  {
    Embed("I see that you're experiencing ",
      emotion,
      " feelings. Your entry shows " +
      "self-awareness about this " +
      "powerful emotion. Anger can " +
      "provide important information " +
      "and energy for change when " +
      "channeled constructively. What " +
      "would be a healthy way to " +
      "express or use this emotional " +
      "energy?")
  }

  function AngryReply3(emotion: string): (r: string)
    ensures Contains(r, emotion)
  {
    Embed("Your reflection on feeling ",
      emotion,
      " demonstrates emotional " +
      "honesty. I notice you're " +
      "connecting this feeling to " +
      "specific triggers or " +
      "situations. This awareness can " +
      "help transform reactive anger " +
      "into responsive action. What " +
      "small step might help address " +
      "the underlying issue causing " +
      "this feeling?")
  }

  // `anxious_responses`, lines 175-181

  function AnxiousReply1(emotion: string): (r: string)
    ensures Contains(r, emotion)
  {
    Embed("Your journal entry about " +
      "feeling ",
      emotion,
      " shows you're experiencing " +
      "heightened alertness and " +
      "concern. I notice thoughtful " +
      "reflection about these " +
      "feelings, which helps create " +
      "distance from them. Anxiety " +
      "often involves anticipating " +
      "future threats. What specific " +
      "uncertainties might be driving " +
      "these feelings?")
  }

  function AnxiousReply2(emotion: string): (r: string)
    ensures Contains(r, emotion)
  {
    Embed("I see that you're going through ",
      emotion,
      " feelings. Your entry reveals " +
      "awareness of both physical and " +
      "mental aspects of anxiety. This " +
      "mind-body connection is " +
      "important to recognize. What " +
      "grounding techniques have " +
      "helped you manage similar " +
      "feelings in the past?")
  }

  function AnxiousReply3(emotion: string): (r: string)
    ensures Contains(r, emotion)
  {
    Embed("Your reflection on feeling ",
      emotion,
      " shows emotional " +
      "self-awareness. I notice " +
      "patterns of anticipatory " +
      "thinking that often accompany " +
      "anxiety. Breaking down concerns " +
      "into what's within and outside " +
      "your control can be helpful. " +
      "What small, manageable action " +
      "might help address one aspect " +
      "of what's causing these " +
      "feelings?")
  }

  // `neutral_responses`, lines 183-189

  function NeutralReply1(emotion: string): (r: string)
    ensures Contains(r, emotion)
  {
    Embed("Your journal entry reveals " +
      "thoughtful reflection about " +
      "your emotional experience of ",
      emotion,
      ". I notice patterns of " +
      "self-awareness and " +
      "introspection that indicate " +
      "healthy emotional processing. " +
      "Consider how these feelings " +
      "connect to your values and what " +
      "they might be telling you about " +
      "your needs in this situation.")
  }

  function NeutralReply2(emotion: string): (r: string)
    ensures Contains(r, emotion)
  {
    Embed("I see you're experiencing " +
      "feelings of ",
      emotion,
      ". Your entry shows emotional " +
      "intelligence in how you're " +
      "identifying and processing " +
      "these feelings. What patterns " +
      "do you notice about when these " +
      "emotions arise and how they " +
      "influence your thoughts and " +
      "behaviors?")
  }

  function NeutralReply3(emotion: string): (r: string)
    ensures Contains(r, emotion)
  {
    Embed("Your reflection demonstrates " +
      "engagement with your emotional " +
      "experience of ",
      emotion,
      ". This kind of emotional " +
      "awareness is associated with " +
      "better mental health outcomes. " +
      "How might these feelings be " +
      "informing you about what " +
      "matters most to you right now?")
  }


  /**
   * The `k`-th text of the bucket's reply list. `random.choice` over the
   * three-element list is modelled by the caller choosing `k`.
   */
  function AnalysisReply(bucket: Bucket, k: nat, emotion: string): (r: string)
    requires k < 3
    ensures Contains(r, emotion)
  {
    match bucket
    case Happy => if k == 0 then HappyReply1(emotion) else if k == 1 then HappyReply2(emotion) else HappyReply3(emotion)
    case Sad => if k == 0 then SadReply1(emotion) else if k == 1 then SadReply2(emotion) else SadReply3(emotion)
    case Angry => if k == 0 then AngryReply1(emotion) else if k == 1 then AngryReply2(emotion) else AngryReply3(emotion)
    case Anxious => if k == 0 then AnxiousReply1(emotion) else if k == 1 then AnxiousReply2(emotion) else AnxiousReply3(emotion)
    case Neutral => if k == 0 then NeutralReply1(emotion) else if k == 1 then NeutralReply2(emotion) else NeutralReply3(emotion)
  }

  /**
   * An analysis reply: one of the three texts of the emotion's bucket, chosen
   * by `pick`; it always mentions the emotion. `content` is accepted and unused.
   */
  function GenerateAnalysisResponse(emotion: string, content: string, pick: nat): (r: string)
    ensures exists k :: 0 <= k < 3 && r == AnalysisReply(BucketOf(emotion), k, emotion)
    ensures Contains(r, emotion)
  {
    AnalysisReply(BucketOf(emotion), pick % 3, emotion)
  }

  // ---------------------------------------------------------------------
  // generate_advisor_response (lines 206-252)

  // `therapist_responses`, lines 212-218

  function TherapistReply1(emotion: string): (r: string)
    ensures Contains(r, emotion)
  {
    Embed("From a therapeutic perspective, " +
      "I want to acknowledge the " +
      "validity of your feelings of ",
      emotion,
      ". What you're experiencing is a " +
      "natural response to your " +
      "situation. I notice some themes " +
      "in your entry that might be " +
      "worth exploring further: how " +
      "these feelings connect to past " +
      "experiences, what core needs " +
      "might be unmet, and what coping " +
      "strategies have worked for you " +
      "before. Would it help to " +
      "discuss some specific " +
      "techniques for managing these " +
      "emotions when they feel " +
      "overwhelming?")
  }

  function TherapistReply2(emotion: string): (r: string)
    ensures Contains(r, emotion)
  {
    Embed("As your therapist, I'm hearing " +
      "that you're experiencing ",
      emotion,
      ", and I want to validate that " +
      "this is a completely " +
      "understandable response to your " +
      "situation. When we experience " +
      emotion +
      ", our bodies and minds are " +
      "trying to tell us something " +
      "important. Let's explore what " +
      "message this emotion might be " +
      "carrying for you. What physical " +
      "sensations do you notice when " +
      "this feeling arises? And what " +
      "thoughts typically accompany it?")
  }

  function TherapistReply3(emotion: string): (r: string)
    ensures Contains(r, emotion)
  {
    Embed("I appreciate your vulnerability " +
      "in sharing these feelings of ",
      emotion,
      ". From a clinical perspective, " +
      "emotions like this often serve " +
      "as important signals about our " +
      "needs and boundaries. I'm " +
      "curious about when you first " +
      "noticed this feeling emerging, " +
      "and what patterns you might " +
      "observe around when it " +
      "intensifies or subsides. " +
      "Developing this awareness can " +
      "be a powerful tool for " +
      "emotional regulation.")
  }

  // `friend_responses`, lines 220-226

  function FriendReply1(emotion: string): (r: string)
    ensures Contains(r, emotion)
  {
    Embed("Hey, I totally get what you're " +
      "going through with these ",
      emotion,
      " feelings right now. That " +
      "sounds really tough! I've been " +
      "in similar situations and it's " +
      "completely normal to feel this " +
      "way. Sometimes when I'm dealing " +
      "with stuff like this, I try to " +
      "take a step back and ask myself " +
      "what I'd tell a friend going " +
      "through the same thing. Maybe " +
      "we could grab coffee sometime " +
      "and talk more about it? Either " +
      "way, I'm here for you whenever " +
      "you need to vent or just want " +
      "some company.")
  }

  function FriendReply2(emotion: string): (r: string)
    ensures Contains(r, emotion)
  {
    Embed("Oh man, feeling ",
      emotion,
      " is the worst sometimes! But " +
      "honestly, who wouldn't feel " +
      "that way in your situation? " +
      "Listen, we all go through these " +
      "things - I had something " +
      "similar happen last year and it " +
      "was super intense. Want to take " +
      "your mind off things? We could " +
      "catch that new movie this " +
      "weekend, or just hang out and " +
      "talk about literally anything " +
      "else if that helps. Just know " +
      "I've got your back no matter " +
      "what.")
  }

  function FriendReply3(emotion: string): (r: string)
    ensures Contains(r, emotion)
  {
    Embed("Hey friend! I just want you to " +
      "know that feeling ",
      emotion,
      " is totally valid and I'm right " +
      "here with you. Sometimes life " +
      "throws these curveballs and " +
      "it's OK not to be OK for a " +
      "while. Remember when I was " +
      "going through that rough patch " +
      "and you were there for me? " +
      "Well, now it's my turn to " +
      "return the favor. What do you " +
      "need right now? Space, " +
      "distraction, advice, or just " +
      "someone to listen? I'm all in, " +
      "whatever helps.")
  }

  // `parent_responses`, lines 228-234

  function ParentReply1(emotion: string): (r: string)
    ensures Contains(r, emotion)
  {
    Embed("I care about you deeply, and it " +
      "hurts to see you struggling " +
      "with these ",
      emotion,
      " feelings. Remember that " +
      "challenges like this are part " +
      "of life's journey and help us " +
      "grow stronger. When I was your " +
      "age, I faced similar situations " +
      "and learned that patience and " +
      "perseverance were key. Trust " +
      "your instincts—you have good " +
      "judgment. And remember, no " +
      "matter what happens, I'm always " +
      "here for you with unconditional " +
      "love and support.")
  }

  function ParentReply2(emotion: string): (r: string)
    ensures Contains(r, emotion)
  {
    Embed("As your parent, seeing you " +
      "experience ",
      emotion,
      " makes me want to fix " +
      "everything for you, but I know " +
      "that's not always what you " +
      "need. What I can offer is my " +
      "unwavering support and the " +
      "wisdom of someone who's " +
      "weathered many storms. This " +
      "feeling won't last forever, " +
      "though I know it's intense " +
      "right now. You come from a long " +
      "line of resilient people, and " +
      "that same strength is in you. " +
      "What can I do to support you " +
      "through this?")
  }

  function ParentReply3(emotion: string): (r: string)
    ensures Contains(r, emotion)
  {
    Embed("My dear child, your feelings of ",
      emotion,
      " are completely natural, and " +
      "I'm proud of you for " +
      "acknowledging them. When you " +
      "were little, I could kiss away " +
      "your hurts, but now I know you " +
      "need different kinds of " +
      "support. I believe in your " +
      "ability to navigate this " +
      "challenge, and I'm here to " +
      "offer guidance when asked, a " +
      "shoulder when needed, and love " +
      "always. Remember that in our " +
      "family, we don't have to face " +
      "difficult times alone.")
  }

  // `mentor_responses`, lines 236-242

  function MentorReply1(emotion: string): (r: string)
    ensures Contains(r, emotion)
  {
    Embed("Looking at your situation " +
      "objectively, I see several " +
      "valuable learning opportunities " +
      "in these ",
      emotion,
      " feelings. Your emotional " +
      "awareness is impressive—that's " +
      "a crucial skill many people " +
      "never develop. Consider framing " +
      "this challenge as a chance to " +
      "develop greater resilience and " +
      "emotional intelligence. What " +
      "specific lessons might this " +
      "experience be teaching you? How " +
      "might these insights serve you " +
      "in future situations? I believe " +
      "you have the capacity to " +
      "transform this difficulty into " +
      "significant personal growth.")
  }

  function MentorReply2(emotion: string): (r: string)
    ensures Contains(r, emotion)
  {
    Embed("As your mentor, I want to " +
      "acknowledge your ",
      emotion,
      " feelings while also " +
      "encouraging you to view this " +
      "situation through a strategic " +
      "lens. Every challenge contains " +
      "the seeds of opportunity. The " +
      "most successful individuals " +
      "I've guided have been those who " +
      "could extract valuable lessons " +
      "from emotional experiences. " +
      "What three insights could you " +
      "take from this situation that " +
      "might serve your long-term " +
      "goals? How might you leverage " +
      "this experience to develop " +
      "greater emotional agility?")
  }

  function MentorReply3(emotion: string): (r: string)
    ensures Contains(r, emotion)
  {
    Embed("I've observed that feeling ",
      emotion,
      " often signals we're at an " +
      "important crossroads. The most " +
      "growth happens at the edge of " +
      "our comfort zones, which is " +
      "rarely a comfortable place to " +
      "be. Consider documenting the " +
      "skills you're developing " +
      "through this challenge - " +
      "resilience, self-awareness, and " +
      "emotional regulation are highly " +
      "valuable in both personal and " +
      "professional contexts. What " +
      "would a future version of " +
      "yourself, who has mastered " +
      "these skills, advise you to do " +
      "now?")
  }

  /** The four advisor reply tables, in a dictionary keyed by these names. */
  datatype Advisor = Therapist | Friend | Parent | Mentor

  function Name(advisor: Advisor): string {
    match advisor
    case Therapist => "therapist"
    case Friend => "friend"
    case Parent => "parent"
    case Mentor => "mentor"
  }

  const AdvisorNames: map<string, Advisor> :=
    map["therapist" := Therapist, "friend" := Friend, "parent" := Parent, "mentor" := Mentor]

  /** Python `table.get(perspective, default)` on a dictionary keyed by the four names. */
  function Lookup(perspective: string, default: Advisor): (a: Advisor)
    ensures perspective in Perspectives ==> Name(a) == perspective
    ensures perspective !in Perspectives ==> a == default
  {
    if perspective in AdvisorNames then AdvisorNames[perspective] else default
  }

  /** The `k`-th text of the advisor's reply list. */
  function AdvisorReply(advisor: Advisor, k: nat, emotion: string): (r: string)
    requires k < 3
    ensures Contains(r, emotion)
  {
    match advisor
    case Therapist => if k == 0 then TherapistReply1(emotion) else if k == 1 then TherapistReply2(emotion) else TherapistReply3(emotion)
    case Friend => if k == 0 then FriendReply1(emotion) else if k == 1 then FriendReply2(emotion) else FriendReply3(emotion)
    case Parent => if k == 0 then ParentReply1(emotion) else if k == 1 then ParentReply2(emotion) else ParentReply3(emotion)
    case Mentor => if k == 0 then MentorReply1(emotion) else if k == 1 then MentorReply2(emotion) else MentorReply3(emotion)
  }

  /**
   * An advisor reply: one of the three texts of the named perspective, the
   * therapist's for a name outside the table; it mentions the emotion.
   */
  function GenerateAdvisorResponse(perspective: string, emotion: string, content: string, pick: nat): (r: string)
    ensures exists k :: 0 <= k < 3 && r == AdvisorReply(Lookup(perspective, Therapist), k, emotion)
    ensures Contains(r, emotion)
  {
    AdvisorReply(Lookup(perspective, Therapist), pick % 3, emotion)
  }

  // ---------------------------------------------------------------------
  // generate_fallback_response (lines 254-265)

  function TherapistFallback(emotion: string): (r: string)
    ensures Contains(r, emotion)
  {
    Embed("From a therapeutic perspective, " +
      "it's important to acknowledge " +
      "that your feelings of ",
      emotion,
      " are valid. Your emotional " +
      "response is a natural reaction " +
      "to this situation. Let's " +
      "explore some coping strategies " +
      "that might help you process " +
      "these emotions in a healthy " +
      "way...")
  }

  function FriendFallback(emotion: string): (r: string)
    ensures Contains(r, emotion)
  {
    Embed("Hey, I totally get what you're " +
      "going through with these ",
      emotion,
      " feelings. It's completely " +
      "normal to feel this way, and I " +
      "want you to know that I'm here " +
      "for you. Have you considered " +
      "looking at it this way...")
  }

  function ParentFallback(emotion: string): (r: string)
    ensures Contains(r, emotion)
  {
    Embed("I care about you deeply and it " +
      "hurts to see you going through " +
      "these ",
      emotion,
      " emotions. Remember that " +
      "challenges help us grow " +
      "stronger, and I believe in your " +
      "ability to handle this " +
      "situation. Here's what I've " +
      "learned from my experience...")
  }

  function MentorFallback(emotion: string): (r: string)
    ensures Contains(r, emotion)
  {
    Embed("Looking at your situation " +
      "objectively, I see several " +
      "learning opportunities here. " +
      "Your emotional awareness about ",
      emotion,
      " is commendable, and we can use " +
      "this experience to develop " +
      "stronger emotional " +
      "intelligence...")
  }

  /** The advisor's single fallback text. */
  function FallbackReply(advisor: Advisor, emotion: string): (r: string)
    ensures Contains(r, emotion)
  {
    match advisor
    case Therapist => TherapistFallback(emotion)
    case Friend => FriendFallback(emotion)
    case Parent => ParentFallback(emotion)
    case Mentor => MentorFallback(emotion)
  }

  /** The fallback reply: the perspective's text, the friend's for a name outside the table. */
  function GenerateFallbackResponse(perspective: string, emotion: string): (r: string)
    ensures perspective in Perspectives ==> r == FallbackReply(Lookup(perspective, Friend), emotion)
    ensures perspective !in Perspectives ==> r == FriendFallback(emotion)
    ensures Contains(r, emotion)
  {
    FallbackReply(Lookup(perspective, Friend), emotion)
  }

  // ---------------------------------------------------------------------
  // chat() (lines 30-78)

  const GenericReply: string :=
    "I've processed your message and " +
    "understand what you're " +
    "expressing. Your thoughts and " +
    "feelings are valid, and I " +
    "appreciate you sharing them. Is " +
    "there a specific aspect of this " +
    "situation you'd like to explore " +
    "further?"

  /** The perspective search of chat(): the first of the four names found in the lowered system text. */
  method FindPerspective(systemMessage: string) returns (perspective: string)
    ensures perspective == match FirstMatch(Lower(systemMessage), Perspectives)
                           case None => ""
                           case Some(k) => Perspectives[k]
  {
    perspective := "";
    for i := 0 to |Perspectives|
      invariant perspective == ""
      invariant forall j :: 0 <= j < i ==> !Contains(Lower(systemMessage), Perspectives[j])
    {
      var p := Perspectives[i];
      if Contains(Lower(systemMessage), p) {
        perspective := p;
        break;
      }
    }
  }

  /**
   * The reply of `/api/chat` for a list of messages: analysis when the
   * lowered user text mentions "analyze" (whatever the system text says),
   * otherwise the first matching advisor perspective of the system text,
   * otherwise the generic reply.
   */
  method Chat(messages: seq<Message>, pick: nat) returns (response: string)
    ensures var user := FirstContent(messages, "user");
            var system := FirstContent(messages, "system");
            var emotion := ExtractEmotion(user);
            var content := ExtractContent(user);
            var persona := FirstMatch(Lower(system), Perspectives);
            && (Contains(Lower(user), "analyze") ==>
                  response == GenerateAnalysisResponse(emotion, content, pick))
            && (!Contains(Lower(user), "analyze") && persona.Some? ==>
                  response == GenerateAdvisorResponse(Perspectives[persona.value], emotion, content, pick))
            && (!Contains(Lower(user), "analyze") && persona.None? ==>
                  response == GenericReply)
  {
    var systemMessage := FirstContent(messages, "system");
    var userMessage := FirstContent(messages, "user");

    var emotion := "unknown";
    var content := "";
    if Contains(userMessage, "feeling") {
      var parts := Split(userMessage, "feeling");
      if |parts| > 1 {
        emotion := Strip(Split(parts[1], ":")[0]);
      }
    }
    if Contains(userMessage, "\"") {
      var contentParts := Split(userMessage, "\"");
      if |contentParts| > 2 {
        content := contentParts[1];
      }
    }

    if Contains(Lower(userMessage), "analyze") {
      response := GenerateAnalysisResponse(emotion, content, pick);
    } else if AnyOccurs(Lower(systemMessage), Perspectives) {
      var perspective := FindPerspective(systemMessage);
      response := GenerateAdvisorResponse(perspective, emotion, content, pick);
    } else {
      response := GenericReply;
    }
  }
}
