/** The action message of src/deploy/protocols/action.py: a robot name and
    its action values, converted to and from a plain dictionary. */
module ActionProtocol {
  import opened Wrappers

  const RobotNameKey: string := "robot_name"
  const ActionsKey: string := "actions"

  /** `Action`. The dataclass annotations (a string and a list of floats)
      are not enforced when it is built, so the fields hold whatever value
      the dictionary carried. */
  datatype Action = Action(robotName: Value, actions: Value)

  /** `to_dict`: exactly the two keys, holding the two fields. */
  function ToDict(a: Action): (d: map<string, Value>)
    ensures d.Keys == {RobotNameKey, ActionsKey}
    ensures d[RobotNameKey] == a.robotName && d[ActionsKey] == a.actions
  {
    map[RobotNameKey := a.robotName, ActionsKey := a.actions]
  }

  /** `from_dict`: reads `robot_name`, then `actions`; the first missing
      key raises KeyError; any other keys are ignored. */
  function FromDict(data: map<string, Value>): (r: Result<Action>)
    ensures r.Ok? <==> RobotNameKey in data && ActionsKey in data
    ensures RobotNameKey !in data ==> r == Err(KeyError(RobotNameKey))
    ensures RobotNameKey in data && ActionsKey !in data ==> r == Err(KeyError(ActionsKey))
    ensures r.Ok? ==> r.value.robotName == data[RobotNameKey] && r.value.actions == data[ActionsKey]
  {
    if RobotNameKey !in data then Err(KeyError(RobotNameKey))
    else if ActionsKey !in data then Err(KeyError(ActionsKey))
    else Ok(Action(data[RobotNameKey], data[ActionsKey]))
  }

  /** An action survives the trip through its dictionary. */
  lemma FromDictToDict(a: Action)
    ensures FromDict(ToDict(a)) == Ok(a)
  {
  }

  /** A dictionary survives the trip through an action when it has exactly
      the two keys; other keys are dropped on the way. */
  lemma ToDictFromDict(data: map<string, Value>)
    requires RobotNameKey in data && ActionsKey in data
    ensures ToDict(FromDict(data).value) == map k | k in data && k in {RobotNameKey, ActionsKey} :: data[k]
    ensures data.Keys == {RobotNameKey, ActionsKey} ==> ToDict(FromDict(data).value) == data
  {
  }
}
