/**
 * The remark generator (services/geminiService.ts): it builds the two
 * prompt strings, sends them to the remote text-generation service and
 * turns whatever comes back, including an error, into a short remark.
 * The remote call itself is a parameter: a function from the request
 * that would be sent to the reply that comes back.
 */
module GeminiService {
  import opened Wrappers
  import opened Types

  const ModelName: string := "gemini-2.5-flash"
  const Temperature: real := 0.9
  const MaxOutputTokens: nat := 30

  /** Appended to the persona text to form the system instruction. */
  const InstructionSuffix: string := " Keep your response under 15 words. Avoid hashtags."
  /** The user prompt is PromptPrefix + action + PromptSuffix. */
  const PromptPrefix: string := "The user just "
  const PromptSuffix: string := ". What do you think?"

  /** The fallback remarks, in the order `getDefaultThought` lists them. */
  const Defaults: seq<string> := [
    "Meow?",
    "Woof!",
    "Hmm...",
    "Where are we going?",
    "I'm hungry.",
    "*Sniff sniff*",
    "Wait for me!",
    "So fast!"
  ]

  /** A draw of `Math.random()`: a number in [0, 1). */
  type Draw = r: real | 0.0 <= r < 1.0

  /** What `generateContent` is asked for. */
  datatype Request = Request(
    model: string,
    contents: string,
    systemInstruction: string,
    temperature: real,
    maxOutputTokens: nat)

  /**
   * What the remote call yields: a response whose `text` may be absent
   * or empty, or a thrown error (network, quota, malformed payload).
   */
  datatype Reply = Response(text: Option<string>) | Failed

  /** True when the reply carries text that JavaScript treats as truthy. */
  predicate HasText(reply: Reply)
  {
    reply.Response? && reply.text.Some? && reply.text.value != ""
  }

  function SystemInstruction(animal: AnimalConfig): string
  {
    animal.prompt + InstructionSuffix
  }

  function UserPrompt(action: string): string
  {
    PromptPrefix + action + PromptSuffix
  }

  /** Recovers the persona text from a system instruction, if it has the expected suffix. */
  function PersonaOf(instruction: string): Option<string>
  {
    if |InstructionSuffix| <= |instruction|
       && instruction[|instruction| - |InstructionSuffix|..] == InstructionSuffix
    then Some(instruction[..|instruction| - |InstructionSuffix|])
    else None
  }

  /** Recovers the action label from a user prompt, if it has the expected frame. */
  function ActionOf(prompt: string): Option<string>
  {
    if |PromptPrefix| + |PromptSuffix| <= |prompt|
       && prompt[..|PromptPrefix|] == PromptPrefix
       && prompt[|prompt| - |PromptSuffix|..] == PromptSuffix
    then Some(prompt[|PromptPrefix|..|prompt| - |PromptSuffix|])
    else None
  }

  /** The system instruction is the persona text followed by the fixed length guidance. */
  lemma {:induction false} SystemInstructionRoundTrip(animal: AnimalConfig)
    ensures PersonaOf(SystemInstruction(animal)) == Some(animal.prompt)
  {
    var s := SystemInstruction(animal);
    assert s[..|animal.prompt|] == animal.prompt;
    assert s[|s| - |InstructionSuffix|..] == InstructionSuffix;
  }

  /** Only strings of the form `p + InstructionSuffix` decode, and they decode to `p`. */
  lemma {:induction false} PersonaOfSound(instruction: string, p: string)
    requires PersonaOf(instruction) == Some(p)
    ensures instruction == p + InstructionSuffix
  {
    var n := |instruction| - |InstructionSuffix|;
    assert instruction == instruction[..n] + instruction[n..];
  }

  /** The user prompt is the action label between the fixed prefix and suffix. */
  lemma {:induction false} UserPromptRoundTrip(action: string)
    ensures ActionOf(UserPrompt(action)) == Some(action)
  {
    var s := UserPrompt(action);
    assert s[..|PromptPrefix|] == PromptPrefix;
    assert s[|s| - |PromptSuffix|..] == PromptSuffix;
    assert s[|PromptPrefix|..|s| - |PromptSuffix|] == action;
  }

  /** Only strings of the form `PromptPrefix + a + PromptSuffix` decode, and they decode to `a`. */
  lemma {:induction false} ActionOfSound(prompt: string, a: string)
    requires ActionOf(prompt) == Some(a)
    ensures prompt == PromptPrefix + a + PromptSuffix
  {
    var n := |prompt| - |PromptSuffix|;
    assert prompt == prompt[..|PromptPrefix|] + prompt[|PromptPrefix|..n] + prompt[n..];
  }

  /** The request sent for a persona and an action label. */
  function BuildRequest(animal: AnimalConfig, action: string): (q: Request)
    ensures PersonaOf(q.systemInstruction) == Some(animal.prompt)
    ensures ActionOf(q.contents) == Some(action)
    ensures q.model == ModelName && q.temperature == Temperature && q.maxOutputTokens == MaxOutputTokens
  {
    SystemInstructionRoundTrip(animal);
    UserPromptRoundTrip(action);
    Request(ModelName, UserPrompt(action), SystemInstruction(animal), Temperature, MaxOutputTokens)
  }

  /** `Math.floor(draw * defaults.length)`. */
  function DefaultIndex(draw: Draw): (k: nat)
    ensures k < |Defaults|
    ensures k as real <= draw * |Defaults| as real < k as real + 1.0
  {
    (draw * |Defaults| as real).Floor
  }

  /** Every fallback remark is chosen by some draw: the draw k/8 selects entry k. */
  lemma DefaultIndexReaches(k: nat)
    requires k < |Defaults|
    ensures 0.0 <= k as real / |Defaults| as real < 1.0
    ensures DefaultIndex(k as real / |Defaults| as real) == k
  {
    var r := k as real / |Defaults| as real;
    assert r * |Defaults| as real == k as real;
  }

  /** The fallback remark; the persona it is given plays no part in the choice. */
  function GetDefaultThought(animal: AnimalConfig, draw: Draw): (r: string)
    ensures r in Defaults
    ensures r != ""
  {
    Defaults[DefaultIndex(draw)]
  }

  /** The fallback remark is the same whichever persona asks for it. */
  lemma DefaultIgnoresAnimal(a: AnimalConfig, b: AnimalConfig, draw: Draw)
    ensures GetDefaultThought(a, draw) == GetDefaultThought(b, draw)
  {
  }

  /**
   * `generateAnimalThought`: the text of the reply to the request built
   * from the persona and the action when that text is non-empty, and a
   * fallback remark when it is empty or absent or the call failed. No
   * error leaves the function: its result is always a string.
   */
  function GenerateAnimalThought(animal: AnimalConfig, action: string, service: Request -> Reply, draw: Draw): (r: string)
    ensures HasText(service(BuildRequest(animal, action))) ==> r == service(BuildRequest(animal, action)).text.value
    ensures !HasText(service(BuildRequest(animal, action))) ==> r in Defaults
    ensures r != ""
  {
    var reply := service(BuildRequest(animal, action));
    if HasText(reply) then reply.text.value else GetDefaultThought(animal, draw)
  }

  /** A failed call yields one of the fallback remarks, never an error text. */
  lemma FailureYieldsDefault(animal: AnimalConfig, action: string, service: Request -> Reply, draw: Draw)
    requires service(BuildRequest(animal, action)).Failed?
    ensures GenerateAnimalThought(animal, action, service, draw) == GetDefaultThought(animal, draw)
  {
  }

  /** A response without usable text yields the same fallback as a failure. */
  lemma EmptyTextYieldsDefault(animal: AnimalConfig, action: string, service: Request -> Reply, draw: Draw)
    requires service(BuildRequest(animal, action)) in {Response(None), Response(Some(""))}
    ensures GenerateAnimalThought(animal, action, service, draw) == GetDefaultThought(animal, draw)
  {
  }
}
