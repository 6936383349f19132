/**
 * The autonomous selector on the brain screen: four buttons whose free numbers 0..3 pick a
 * match routine, and a default of 4 (skills) set when the selector is drawn. The widgets,
 * styles and label texts are not modelled.
 */
module BrainScreen {

  /** The button id: lv_obj_get_free_num stored into a uint8_t. */
  type uint8 = x: int | 0 <= x < 256

  /** LVGL action results. */
  datatype LvRes = LvResOk | LvResInv

  /** The selected routine after a click on the button with free number `id`. */
  function SelectionAfterClick(selectedAuton: int, id: uint8): (r: int)
    ensures id <= 3 ==> r == id
    ensures id > 3 ==> r == selectedAuton
  {
    match id
    case 0 => 0
    case 1 => 1
    case 2 => 2
    case 3 => 3
    case _ => selectedAuton
  }

  /** A second click on the same button changes nothing more. */
  lemma ClickIdempotent(selectedAuton: int, id: uint8)
    ensures SelectionAfterClick(SelectionAfterClick(selectedAuton, id), id)
            == SelectionAfterClick(selectedAuton, id)
  {
  }

  /** Clicks keep the selection among the values 0..4. */
  lemma ClickKeepsRange(selectedAuton: int, id: uint8)
    requires 0 <= selectedAuton <= 4
    ensures 0 <= SelectionAfterClick(selectedAuton, id) <= 4
  {
  }

  /** BrainUI: the static selectedAuton, zero before the selector is drawn. */
  class BrainUI {
    var selectedAuton: int

    /** The selection is one of the five routines. */
    ghost predicate Valid()
      reads this
    {
      0 <= selectedAuton <= 4
    }

    /** Static storage: selectedAuton starts at zero. */
    constructor ()
      ensures Valid() && selectedAuton == 0
    {
      selectedAuton := 0;
    }

    /** The button callback: buttons 0..3 select their routine; any other id does nothing. */
    method BtnClickAction(id: uint8) returns (res: LvRes)
      requires Valid()
      modifies this
      ensures Valid()
      ensures res == LvResOk
      ensures selectedAuton == SelectionAfterClick(old(selectedAuton), id)
    {
      match id {
        case 0 => selectedAuton := 0;
        case 1 => selectedAuton := 1;
        case 2 => selectedAuton := 2;
        case 3 => selectedAuton := 3;
        case _ =>
      }
      res := LvResOk;
    }

    /** Drawing the selector makes skills (4) the default. */
    method DisplayAutonSelectorUI()
      modifies this
      ensures Valid() && selectedAuton == 4
    {
      selectedAuton := 4;
    }
  }

  /** Clicking the same button twice leaves the state of one click. */
  method ClickTwiceScenario(id: uint8) {
    var ui := new BrainUI();
    ui.DisplayAutonSelectorUI();
    var r := ui.BtnClickAction(id);
    var once := ui.selectedAuton;
    r := ui.BtnClickAction(id);
    assert ui.selectedAuton == once && r == LvResOk;
    assert id > 3 ==> once == 4;
  }
}
