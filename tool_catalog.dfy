/** The static catalog the server advertises: the six tool names (with the argument
    names each tool's input schema marks as required) and the single guidance prompt.
    The schemas are documentation only; nothing in the dispatcher validates against them. */
module ToolCatalog {
  import opened SceneJson

  const AddObject: string := "addObject"
  const MoveObject: string := "moveObject"
  const RemoveObject: string := "removeObject"
  const StartRotation: string := "startRotation"
  const StopRotation: string := "stopRotation"
  const GetSceneState: string := "getSceneState"

  /** The tool listing, in the order the server lists it. */
  const ToolNames: seq<string> :=
    [AddObject, MoveObject, RemoveObject, StartRotation, StopRotation, GetSceneState]

  /** The tools whose command is the argument bag spread over the action tag. */
  const SpreadTools: set<string> := {AddObject, MoveObject, RemoveObject}

  /** The tools whose command is built field by field from the arguments. */
  const RotationTools: set<string> := {StartRotation, StopRotation}

  /** The tools that send a command to the renderer. */
  const MutatingTools: set<string> := SpreadTools + RotationTools

  /** The `required` list of each tool's input schema. */
  function RequiredArgs(name: string): (r: set<string>)
    // only the mutating tools require arguments; getSceneState and unknown names none
    ensures r != {} <==> name in MutatingTools
    // every tool that targets an existing object requires its `id`
    ensures "id" in r <==> name in MutatingTools && name != AddObject
    // no schema asks for an `action` argument
    ensures "action" !in r
  {
    if name == AddObject then {"type", "position", "color"}
    else if name == MoveObject then {"id", "position"}
    else if name == RemoveObject then {"id"}
    else if name == StartRotation then {"id", "speed"}
    else if name == StopRotation then {"id"}
    else {}
  }

  const PromptName: string := "asset-creation-strategy"
  const PromptDescription: string := "Defines the preferred strategy for creating assets in ThreeJS"

  datatype PromptError = UnknownPrompt

  /** The prompt lookup: the one known prompt yields its description, any other name
      is an error raised to the caller. */
  function GetPrompt(name: string): (r: Result<string, PromptError>)
    ensures r.Ok? <==> name == PromptName
    ensures r.Ok? ==> r.value == PromptDescription
    ensures r.Err? ==> r.error == UnknownPrompt
  {
    if name != PromptName then Err(UnknownPrompt) else Ok(PromptDescription)
  }

  /** The listed tools are six distinct names: exactly the mutating tools and the
      snapshot query, and the prompt name is not one of them. */
  lemma CatalogShape()
    ensures |ToolNames| == 6
    ensures forall i, j :: 0 <= i < j < |ToolNames| ==> ToolNames[i] != ToolNames[j]
    ensures forall n :: n in ToolNames <==> n in MutatingTools || n == GetSceneState
    ensures GetSceneState !in MutatingTools && PromptName !in ToolNames
  {
  }
}
