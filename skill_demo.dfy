/** The demo dispatcher (src/components/skills/SkillDemo.tsx): which demo the
    preview panel renders for the selected skill, and with which props. */
module SkillDemo {
  import opened SkillsData

  /** The rendered demo with the props it receives. */
  datatype Demo =
    | Redux(isPlaying: bool, reducedMotion: bool)
    | WebSockets(isPlaying: bool, reducedMotion: bool)
    | Redis(isPlaying: bool, reducedMotion: bool)
    | Docker(isPlaying: bool, reducedMotion: bool)
    | Rest(isPlaying: bool, reducedMotion: bool)
    | Default(skill: Skill, reducedMotion: bool)

  /** The demo types with a demo of their own. */
  predicate HasOwnDemo(t: DemoType) {
    t == ReduxDemo || t == WebSocketsDemo || t == RedisDemo || t == DockerDemo || t == RestDemo
  }

  /** `getDemoComponent`: a switch on the skill's demo type with a default. */
  function DemoFor(skill: Skill, isPlaying: bool, reducedMotion: bool): Demo {
    match skill.demoType
    case ReduxDemo => Redux(isPlaying, reducedMotion)
    case WebSocketsDemo => WebSockets(isPlaying, reducedMotion)
    case RedisDemo => Redis(isPlaying, reducedMotion)
    case DockerDemo => Docker(isPlaying, reducedMotion)
    case RestDemo => Rest(isPlaying, reducedMotion)
    case _ => Default(skill, reducedMotion)
  }

  /** The demo type a rendered specialised demo stands for. */
  function DemoTypeOf(d: Demo): DemoType {
    match d
    case Redux(_, _) => ReduxDemo
    case WebSockets(_, _) => WebSocketsDemo
    case Redis(_, _) => RedisDemo
    case Docker(_, _) => DockerDemo
    case Rest(_, _) => RestDemo
    case Default(_, _) => DefaultDemo
  }

  /** The dispatch is total: the five demo types with a demo of their own
      get it, with `isPlaying` and `reducedMotion` passed unchanged; every
      other type gets the default demo, which receives the skill and
      `reducedMotion` only. */
  lemma DispatchFaithful(skill: Skill, isPlaying: bool, reducedMotion: bool)
    ensures HasOwnDemo(skill.demoType) ==>
      !DemoFor(skill, isPlaying, reducedMotion).Default?
      && DemoTypeOf(DemoFor(skill, isPlaying, reducedMotion)) == skill.demoType
      && DemoFor(skill, isPlaying, reducedMotion).isPlaying == isPlaying
      && DemoFor(skill, isPlaying, reducedMotion).reducedMotion == reducedMotion
    ensures !HasOwnDemo(skill.demoType) ==>
      DemoFor(skill, isPlaying, reducedMotion) == Default(skill, reducedMotion)
  {
  }

  /** React, TypeScript, GraphQL, Git, Vue and Node.js carry demo types of
      their own in the table, yet the switch has no case for them: they all
      get the default demo. */
  lemma UnhandledDemoTypesFallBack(skill: Skill, isPlaying: bool, reducedMotion: bool)
    requires skill.demoType in {ReactDemo, TypeScriptDemo, GraphQLDemo, GitDemo, VueDemo, NodeJsDemo}
    ensures DemoFor(skill, isPlaying, reducedMotion) == Default(skill, reducedMotion)
  {
  }

  /** Six skills of the table have such a demo type. */
  lemma TableSkillsWithUnhandledTypes()
    ensures FrontendSkills[0].id == "react" && FrontendSkills[0].demoType == ReactDemo
    ensures FrontendSkills[1].id == "typescript" && FrontendSkills[1].demoType == TypeScriptDemo
    ensures VueSkills[0].id == "vue" && VueSkills[0].demoType == VueDemo
    ensures BackendSkills[0].id == "nodejs" && BackendSkills[0].demoType == NodeJsDemo
    ensures BackendSkills[2].id == "graphql" && BackendSkills[2].demoType == GraphQLDemo
    ensures ToolingSkills[0].id == "git" && ToolingSkills[0].demoType == GitDemo
  {
  }
}
