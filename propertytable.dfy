/**
 * The serializer's hand-written table of object properties, keyed by the
 * upper-case input names of the block definitions, and the fact that each entry
 * only restores the camelCase of its key.
 */
module PropertyNames {
  import opened Wrappers
  import opened Text

  /** The fourteen input names with a hand-written object property. */
  function PropertyTable(inputName: string): Option<string> {
    match inputName
    case "HASAREA" => Some("hasArea")
    case "HASFLOOR" => Some("hasFloor")
    case "HASSPACE" => Some("hasSpace")
    case "HASCIRCUIT" => Some("hasCircuit")
    case "FEEDSEQUIPMENT" => Some("feedsEquipment")
    case "HASEQUIPMENT" => Some("hasEquipment")
    case "HASBUILDINGELEMENT" => Some("hasBuildingElement")
    case "HASWIRING" => Some("hasWiring")
    case "BELONGSTOZONE" => Some("belongsToZone")
    case "HASEQUIPMENTTYPE" => Some("hasEquipmentType")
    case "HASPROTECTION" => Some("hasProtection")
    case "HASCIRCUITTYPE" => Some("hasCircuitType")
    case "CONNECTEDTONETWORK" => Some("connectedToNetwork")
    case "HASPART" => Some("hasPart")
    case _ => None
  }

  // The table entries lower-cased, one at a time.

  lemma TableCaseHasArea()
    ensures Lower("hasArea") == "hasarea" == Lower("HASAREA")
  {
  }

  lemma TableCaseHasFloor()
    ensures Lower("hasFloor") == "hasfloor" == Lower("HASFLOOR")
  {
  }

  lemma TableCaseHasSpace()
    ensures Lower("hasSpace") == "hasspace" == Lower("HASSPACE")
  {
  }

  lemma TableCaseHasCircuit()
    ensures Lower("hasCircuit") == "hascircuit" == Lower("HASCIRCUIT")
  {
  }

  lemma TableCaseFeedsEquipment()
    ensures Lower("feedsEquipment") == "feedsequipment" == Lower("FEEDSEQUIPMENT")
  {
  }

  lemma TableCaseHasEquipment()
    ensures Lower("hasEquipment") == "hasequipment" == Lower("HASEQUIPMENT")
  {
  }

  lemma TableCaseHasBuildingElement()
    ensures Lower("hasBuildingElement") == "hasbuildingelement" == Lower("HASBUILDINGELEMENT")
  {
  }

  lemma TableCaseHasWiring()
    ensures Lower("hasWiring") == "haswiring" == Lower("HASWIRING")
  {
  }

  lemma TableCaseBelongsToZone()
    ensures Lower("belongsToZone") == "belongstozone" == Lower("BELONGSTOZONE")
  {
  }

  lemma TableCaseHasEquipmentType()
    ensures Lower("hasEquipmentType") == "hasequipmenttype" == Lower("HASEQUIPMENTTYPE")
  {
  }

  lemma TableCaseHasProtection()
    ensures Lower("hasProtection") == "hasprotection" == Lower("HASPROTECTION")
  {
  }

  lemma TableCaseHasCircuitType()
    ensures Lower("hasCircuitType") == "hascircuittype" == Lower("HASCIRCUITTYPE")
  {
  }

  lemma TableCaseConnectedToNetwork()
    ensures Lower("connectedToNetwork") == "connectedtonetwork" == Lower("CONNECTEDTONETWORK")
  {
  }

  lemma TableCaseHasPart()
    ensures Lower("hasPart") == "haspart" == Lower("HASPART")
  {
  }

  /** Every table entry is its key up to case. */
  lemma PropertyTableCase(name: string)
    requires PropertyTable(name).Some?
    ensures Lower(PropertyTable(name).value) == Lower(name)
  {
    match name
    case "HASAREA" => TableCaseHasArea();
    case "HASFLOOR" => TableCaseHasFloor();
    case "HASSPACE" => TableCaseHasSpace();
    case "HASCIRCUIT" => TableCaseHasCircuit();
    case "FEEDSEQUIPMENT" => TableCaseFeedsEquipment();
    case "HASEQUIPMENT" => TableCaseHasEquipment();
    case "HASBUILDINGELEMENT" => TableCaseHasBuildingElement();
    case "HASWIRING" => TableCaseHasWiring();
    case "BELONGSTOZONE" => TableCaseBelongsToZone();
    case "HASEQUIPMENTTYPE" => TableCaseHasEquipmentType();
    case "HASPROTECTION" => TableCaseHasProtection();
    case "HASCIRCUITTYPE" => TableCaseHasCircuitType();
    case "CONNECTEDTONETWORK" => TableCaseConnectedToNetwork();
    case "HASPART" => TableCaseHasPart();
  }
}
