/**
 * The unit tests of src/lib.rs, and the scenarios of an unauthorised and a
 * granted writer, as client code whose assertions follow from the
 * contracts of class Product alone. The test context signs every call as
 * "Paul".
 */
module ProductTests {
  import opened Types
  import opened ProductContract

  method SetThenGetProduct() {
    var contract := new Product();
    var ok := contract.New("Paul");
    ok := contract.SetProducts("Paul", "0x1", "PS4 x", 800, 100);
    var result := contract.GetProducts("0x1");
    assert result == Ok(Some(Item("PS4 x", 800, 100)));
  }

  method GetDefaultProduct() {
    var contract := new Product();
    var ok := contract.New("Paul");
    var result := contract.GetProducts("0x1");
    assert result == Ok(None);
  }

  method SetDeleteProduct() {
    var contract := new Product();
    var ok := contract.New("Paul");
    ok := contract.SetProducts("Paul", "0x11", "PS5", 12345, 12);
    ok := contract.DeleteProducts("Paul", "0x11");
    var result := contract.GetProducts("0x11");
    assert result == Ok(None);
  }

  method UpdateGetProduct() {
    var contract := new Product();
    var ok := contract.New("Paul");
    ok := contract.SetProducts("Paul", "0x1", "PS5", 500, 12);
    ok := contract.SetProducts("Paul", "0x1", "PS5", 1200, 7);
    var result := contract.GetProducts("0x1");
    assert result.Ok? && result.value.Some? && result.value.value.stock == 7;
  }

  method StrangerIsRefusedUntilGranted() {
    var contract := new Product();
    var ok := contract.New("Paul");
    ok := contract.SetProducts("Eve", "k", "x", 1, 1);
    assert ok == Fail(Unauthorized) && Message(ok.error) == Some("401");
    var result := contract.GetProducts("k");
    assert result == Ok(None);
    ok := contract.AddRoleSetProduct("Eve", "Eve");
    assert ok == Fail(NotOwner);
    ok := contract.AddRoleSetProduct("Paul", "Eve");
    ok := contract.SetProducts("Eve", "k", "x", 1, 1);
    assert ok == Pass;
    ok := contract.New("Eve");
    assert ok == Fail(AlreadyInitialized);
  }
}
